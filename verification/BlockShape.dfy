/** What the blocks of a parsed document hold: the fields and blocks of their text in document order, and nothing that
    is not declared. */
module BlockShape {
  import opened Text
  import opened Json
  import opened Tokens
  import opened LineProtocol
  import opened Parser
  import Lists

  // ----- Document order -----

  /** The values that the block has for a field */
  function ValuesOf(items: seq<Item>, path: string): seq<Value> {
    if path in FieldsOf(items) then FieldsOf(items)[path] else []
  }

  /** `values` are what the items give that field, in order and each once; `at` are their places. */
  ghost predicate Gives(items: seq<Item>, path: string, values: seq<Value>, at: seq<nat>) {
    && |at| == |values| && Lists.Increasing(at)
    && (forall k | 0 <= k < |at| :: at[k] < |items| && items[at[k]] == Field(path, values[k]))
    && forall j: nat | j < |items| && items[j].Field? && items[j].path == path :: j in at
  }

  lemma OneMoreItem(items: seq<Item>, path: string, values: seq<Value>, at: seq<nat>, i: Item) returns (more: seq<nat>)
    requires Gives(items, path, values, at)
    ensures Gives(items + [i], path, values + if i.Field? && i.path == path then [i.value] else [], more)
  {
    var all := items + [i];
    more := at + if i.Field? && i.path == path then [|items|] else [];
    forall j: nat | j < |all| && all[j].Field? && all[j].path == path
      ensures j in more
    {
      if j == |items| {
        assert more[|at|] == j;
      } else {
        assert all[j] == items[j] && j in at;
      }
    }
  }

  lemma FieldsAfter(items: seq<Item>, i: Item, path: string)
    ensures ValuesOf(items + [i], path) == ValuesOf(items, path) + if i.Field? && i.path == path then [i.value] else []
  {
    ItemAppended(items, i);
  }

  /** A block lists the values of a field in the order of its lines. */
  lemma {:induction false} FieldsInOrder(items: seq<Item>, path: string) returns (at: seq<nat>)
    ensures Gives(items, path, ValuesOf(items, path), at)
  {
    at := [];
    if items != [] {
      var front, last := items[..|items| - 1], items[|items| - 1];
      assert items == front + [last];
      at := FieldsInOrder(front, path);
      at := OneMoreItem(front, path, ValuesOf(front, path), at, last);
      FieldsAfter(front, last, path);
    }
  }

  /** `blocks` are what the blocks among the items mean, in order and each once. */
  ghost predicate Holds(items: seq<Item>, blocks: seq<Block>, at: seq<nat>) {
    && |at| == |blocks| && Lists.Increasing(at)
    && (forall k | 0 <= k < |at| ::
          at[k] < |items| && items[at[k]].Sub? && blocks[k] == Meaning(items[at[k]].node))
    && forall j: nat | j < |items| && items[j].Sub? :: j in at
  }

  lemma OneMoreBlock(items: seq<Item>, blocks: seq<Block>, at: seq<nat>, i: Item) returns (more: seq<nat>)
    requires Holds(items, blocks, at)
    ensures Holds(items + [i], blocks + SubMeaning(i), more)
  {
    var all := items + [i];
    more := at + if i.Sub? then [|items|] else [];
    forall j: nat | j < |all| && all[j].Sub?
      ensures j in more
    {
      if j == |items| {
        assert more[|at|] == j;
      } else {
        assert all[j] == items[j] && j in at;
      }
    }
  }

  /** A block holds the blocks inside it in the order of their lines. */
  lemma {:induction false} ChildrenInOrder(items: seq<Item>) returns (at: seq<nat>)
    ensures Holds(items, ChildrenOf(items), at)
  {
    at := [];
    if items != [] {
      var front, last := items[..|items| - 1], items[|items| - 1];
      assert items == front + [last];
      at := ChildrenInOrder(front);
      at := OneMoreBlock(front, ChildrenOf(front), at, last);
      ItemAppended(front, last);
    }
  }

  // ----- Declarations -----

  /** The block itself and all blocks inside it, at any depth */
  function Everything(b: Block): seq<Block>
    decreases b, 0
  {
    [b] + Inside(b.children)
  }

  function Inside(children: seq<Block>): seq<Block>
    decreases children, 1
  {
    if children == [] then [] else Everything(children[0]) + Inside(children[1..])
  }

  /** The type is declared, with these fields, with those that repeat as arrays, and with blocks of these types. */
  predicate Declared(x: Block, registry: CodecRegistry) {
    && x.typ in registry
    && (forall path | path in x.fields ::
          path in registry[x.typ].fields && (|x.fields[path]| <= 1 || path in registry[x.typ].arrays))
    && forall child | child in x.children :: child.typ in registry[x.typ].children
  }

  ghost predicate AllDeclared(blocks: seq<Block>, registry: CodecRegistry) {
    forall x | x in blocks :: Declared(x, registry)
  }

  lemma AllDeclaredAppend(a: seq<Block>, b: seq<Block>, registry: CodecRegistry)
    ensures AllDeclared(a + b, registry) <==> AllDeclared(a, registry) && AllDeclared(b, registry)
  {
    if AllDeclared(a + b, registry) {
      assert forall x | x in a :: x in a + b;
      assert forall x | x in b :: x in a + b;
    }
  }

  lemma DeclaredIs(b: Block, registry: CodecRegistry)
    ensures Declared(b, registry) <==>
      && b.typ in registry
      && b.fields.Keys <= registry[b.typ].fields
      && (forall path | path in b.fields :: |b.fields[path]| > 1 ==> path in registry[b.typ].arrays)
      && forall i | 0 <= i < |b.children| :: b.children[i].typ in registry[b.typ].children
  {
    if Declared(b, registry) {
      assert forall path | path in b.fields.Keys :: path in registry[b.typ].fields;
      assert forall i | 0 <= i < |b.children| :: b.children[i] in b.children;
    }
  }

  /** The check accepts exactly the trees in which every block, at any depth, is declared. */
  lemma {:induction false} RegisteredIff(b: Block, registry: CodecRegistry)
    ensures Registered(b, registry) <==> AllDeclared(Everything(b), registry)
    decreases b, 0
  {
    AllDeclaredAppend([b], Inside(b.children), registry);
    InsideIff(b.children, registry);
    DeclaredIs(b, registry);
    assert AllDeclared([b], registry) <==> Declared(b, registry) by {
      assert b in [b];
    }
  }

  lemma {:induction false} InsideIff(children: seq<Block>, registry: CodecRegistry)
    ensures (forall i | 0 <= i < |children| :: Registered(children[i], registry))
      <==> AllDeclared(Inside(children), registry)
    decreases children, 1
  {
    if children != [] {
      RegisteredIff(children[0], registry);
      InsideIff(children[1..], registry);
      AllDeclaredAppend(Everything(children[0]), Inside(children[1..]), registry);
      assert children == [children[0]] + children[1..];
    }
  }

  /** A document parses to a block exactly when its lines are the lines of some syntax tree that means the block, the
      block is no step, and every block in it is declared. */
  lemma ParsesIff(document: string, other: OtherLiterals, b: Block)
    ensures Parse(document, other) == Some(b) <==>
      && b.typ != "STEP" && AllDeclared(Everything(b), CODEC_REGISTRY)
      && exists n :: Yield(n) == TokenizeAll(Lines(document), other) && Meaning(n) == b
  {
    ParseIsGrammar(document, other, b);
    RegisteredIff(b, CODEC_REGISTRY);
  }
}
