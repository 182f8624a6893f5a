/** The UDMF `TEXTMAP` lump: the recursive-descent parser over the lexer's
    tokens (section I, Grammar/Syntax, of ZDoom's UDMF specification) and
    the serialiser that writes a map back as text. */
module Textmaps {
  import opened Wrappers
  import opened Text

  /** A token of the lexer; a floating-point literal is not represented. */
  datatype Token =
    | BoolTok(b: bool)
    | Ident(s: string)
    | IntTok(n: int)
    | StrTok(s: string)
    | AssignTok
    | OpenBrace
    | CloseBrace
    | EndStatement
    | CharTok(c: string)
    | Eof

  /** A property value: a boolean, a number, or a string. */
  datatype Value = VBool(b: bool) | VNum(n: int) | VStr(s: string)

  datatype BlockType = Thing | Vertex | Linedef | Sidedef | Sector

  datatype Property = Property(key: string, value: Value)

  /** A block: its type and its properties in the order they were first
      assigned. */
  datatype Block = Block(blockType: BlockType, properties: seq<Property>)

  /** A parse: the namespace and the blocks read, and the error, if any, that
      stopped it. Blocks read before an error are kept. */
  datatype Parsed = Parsed(namespace: Option<string>, blocks: seq<Block>, error: Option<ParseError>)

  /** The errors the parser throws; `Message` is the text each one carries. */
  datatype ParseError = NoTokens | EndOfTokens | ExpectName | ExpectAssign | ExpectEnd | ExpectBlock | InvalidBlock | ExpectOpen

  function Message(e: ParseError): string {
    match e
    case NoTokens => "Expected one or more tokens"
    case EndOfTokens => "Unexpected end of tokens"
    case ExpectName => "Expected assignment expression to begin with an identifier"
    case ExpectAssign => "Expected assignment operator to follow identifier"
    case ExpectEnd => "Expected end statement after assignment value"
    case ExpectBlock => "Expected block identifier"
    case InvalidBlock => "Invalid block type"
    case ExpectOpen => "Expected open brace"
  }

  /** One step of the parser: what it read, or the error it throws. */
  datatype Scan<+T> = Next(value: T) | Stop(error: ParseError)

  /** A token's `value`: the matched text for punctuation, identifiers and
      characters; the EOF token's value is the empty string. */
  function ValueOf(t: Token): Value {
    match t
    case BoolTok(b) => VBool(b)
    case Ident(s) => VStr(s)
    case IntTok(n) => VNum(n)
    case StrTok(s) => VStr(s)
    case AssignTok => VStr("=")
    case OpenBrace => VStr("{")
    case CloseBrace => VStr("}")
    case EndStatement => VStr(";")
    case CharTok(c) => VStr(c)
    case Eof => VStr("")
  }

  /** `value.toString()`. */
  function ValueToString(v: Value): string {
    match v
    case VBool(b) => if b then "true" else "false"
    case VNum(n) => IntToString(n)
    case VStr(s) => s
  }

  function TypeName(t: BlockType): string {
    match t
    case Thing => "thing"
    case Vertex => "vertex"
    case Linedef => "linedef"
    case Sidedef => "sidedef"
    case Sector => "sector"
  }

  /** The block type `parseBlock`'s switch accepts an identifier as. */
  function BlockTypeOf(s: string): (r: Option<BlockType>)
    ensures r.Some? ==> TypeName(r.value) == s
  {
    if s == "thing" then Some(Thing)
    else if s == "vertex" then Some(Vertex)
    else if s == "linedef" then Some(Linedef)
    else if s == "sidedef" then Some(Sidedef)
    else if s == "sector" then Some(Sector)
    else None
  }

  /** Each block type is read back from its name. */
  lemma {:induction false} BlockTypeNamed(t: BlockType)
    ensures BlockTypeOf(TypeName(t)) == Some(t)
  {
  }

  // ---- properties -----------------------------------------------------------

  function Lookup(props: seq<Property>, key: string): Option<Value> {
    if props == [] then None
    else if props[0].key == key then Some(props[0].value)
    else Lookup(props[1..], key)
  }

  function KeyIndex(props: seq<Property>, key: string): (i: int)
    ensures -1 <= i < |props|
    ensures i >= 0 ==> props[i].key == key
    ensures forall j :: 0 <= j < |props| && (i < 0 || j < i) ==> props[j].key != key
  {
    if props == [] then -1
    else if props[0].key == key then 0
    else
      var i := KeyIndex(props[1..], key);
      if i < 0 then -1 else i + 1
  }

  /** `properties[name] = value` on a plain object: an existing key keeps its
      place and takes the new value, a new key goes last, and `__proto__`
      with a primitive value changes nothing. */
  function SetProperty(props: seq<Property>, key: string, value: Value): (r: seq<Property>)
    ensures key == "__proto__" ==> r == props
    ensures key != "__proto__" && KeyIndex(props, key) < 0 ==> r == props + [Property(key, value)]
    ensures key != "__proto__" && KeyIndex(props, key) >= 0 ==> r == props[KeyIndex(props, key) := Property(key, value)]
  {
    if key == "__proto__" then props
    else
      var i := KeyIndex(props, key);
      if i < 0 then props + [Property(key, value)] else props[i := Property(key, value)]
  }

  lemma {:induction false} LookupIndex(props: seq<Property>, key: string)
    ensures Lookup(props, key) == if KeyIndex(props, key) < 0 then None else Some(props[KeyIndex(props, key)].value)
    decreases |props|
  {
    if props != [] && props[0].key != key {
      LookupIndex(props[1..], key);
    }
  }

  lemma {:induction false} KeyIndexIsFirst(props: seq<Property>, key: string, i: int)
    requires -1 <= i < |props|
    requires i >= 0 ==> props[i].key == key
    requires forall j :: 0 <= j < |props| && (i < 0 || j < i) ==> props[j].key != key
    ensures KeyIndex(props, key) == i
  {
  }


  /** The last assignment to a key wins, and the other keys keep their
      values. */
  lemma {:induction false} LastAssignmentWins(props: seq<Property>, key: string, value: Value, other: string)
    requires key != "__proto__" && other != key
    ensures Lookup(SetProperty(props, key, value), key) == Some(value)
    ensures Lookup(SetProperty(props, key, value), other) == Lookup(props, other)
  {
    var r := SetProperty(props, key, value);
    var i := KeyIndex(props, key);
    var o := KeyIndex(props, other);
    LookupIndex(props, key);
    LookupIndex(r, key);
    LookupIndex(props, other);
    LookupIndex(r, other);
    if i < 0 {
      KeyIndexIsFirst(r, key, |props|);
    } else {
      KeyIndexIsFirst(r, key, i);
    }
    assert forall j :: 0 <= j < |props| ==> r[j].key == props[j].key;
    if o < 0 {
      KeyIndexIsFirst(r, other, -1);
    } else {
      KeyIndexIsFirst(r, other, o);
    }
  }

  // ---- the parser -----------------------------------------------------------

  /** `parseAssignment`: identifier, `=`, any value token, `;`. Reading past
      the last token is an error. */
  function ParseAssignment(tokens: seq<Token>, cursor: nat): (r: Scan<(Property, nat)>)
    ensures r.Next? ==> r.value.1 == cursor + 4 <= |tokens|
    ensures r.Next? ==>
      tokens[cursor].Ident? && tokens[cursor + 1] == AssignTok && tokens[cursor + 3] == EndStatement
      && r.value.0 == Property(tokens[cursor].s, ValueOf(tokens[cursor + 2]))
  {
    if cursor >= |tokens| then Stop(EndOfTokens)
    else if !tokens[cursor].Ident? then Stop(ExpectName)
    else if cursor + 1 >= |tokens| then Stop(EndOfTokens)
    else if tokens[cursor + 1] != AssignTok then Stop(ExpectAssign)
    else if cursor + 3 >= |tokens| then Stop(EndOfTokens)
    else if tokens[cursor + 3] != EndStatement then Stop(ExpectEnd)
    else Next((Property(tokens[cursor].s, ValueOf(tokens[cursor + 2])), cursor + 4))
  }

  /** The property loop of `parseBlock`: assignments until a close brace. */
  function ParseProperties(tokens: seq<Token>, cursor: nat, props: seq<Property>): (r: Scan<(seq<Property>, nat)>)
    ensures r.Next? ==> cursor <= r.value.1 < |tokens| && tokens[r.value.1] == CloseBrace
    decreases |tokens| - cursor
  {
    if cursor >= |tokens| then Stop(EndOfTokens)
    else if tokens[cursor] == CloseBrace then Next((props, cursor))
    else
      var a := ParseAssignment(tokens, cursor);
      if a.Stop? then Stop(a.error)
      else ParseProperties(tokens, a.value.1, SetProperty(props, a.value.0.key, a.value.0.value))
  }

  /** `parseBlock`: a block type, `{`, the properties, `}`. */
  function ParseBlock(tokens: seq<Token>, cursor: nat): (r: Scan<(Block, nat)>)
    ensures r.Next? ==> cursor + 3 <= r.value.1 <= |tokens|
  {
    if cursor >= |tokens| then Stop(EndOfTokens)
    else if !tokens[cursor].Ident? then Stop(ExpectBlock)
    else if BlockTypeOf(tokens[cursor].s).None? then Stop(InvalidBlock)
    else if cursor + 1 >= |tokens| then Stop(EndOfTokens)
    else if tokens[cursor + 1] != OpenBrace then Stop(ExpectOpen)
    else
      var props := ParseProperties(tokens, cursor + 2, []);
      if props.Stop? then Stop(props.error)
      else Next((Block(BlockTypeOf(tokens[cursor].s).value, props.value.0), props.value.1 + 1))
  }

  /** The block loop of `parse`: blocks until the tokens or an EOF token
      end. */
  function ParseBlocks(tokens: seq<Token>, cursor: nat, namespace: Option<string>, blocks: seq<Block>): (r: Parsed)
    ensures r.namespace == namespace
    decreases |tokens| - cursor
  {
    if cursor >= |tokens| || tokens[cursor] == Eof then Parsed(namespace, blocks, None)
    else
      var b := ParseBlock(tokens, cursor);
      if b.Stop? then Parsed(namespace, blocks, Some(b.error))
      else ParseBlocks(tokens, b.value.1, namespace, blocks + [b.value.0])
  }

  /** The blocks read before the loop stops, on an error too, are kept, in
      order, ahead of the ones it reads. */
  lemma {:induction false} ParseBlocksKeeps(tokens: seq<Token>, cursor: nat, namespace: Option<string>, blocks: seq<Block>)
    ensures var r := ParseBlocks(tokens, cursor, namespace, blocks);
      |r.blocks| >= |blocks| && r.blocks[..|blocks|] == blocks
    decreases |tokens| - cursor
  {
    if cursor < |tokens| && tokens[cursor] != Eof {
      var b := ParseBlock(tokens, cursor);
      if b.Next? {
        var more := blocks + [b.value.0];
        ParseBlocksKeeps(tokens, b.value.1, namespace, more);
        var r := ParseBlocks(tokens, b.value.1, namespace, more);
        assert r.blocks[..|blocks|] == r.blocks[..|more|][..|blocks|];
      }
    }
  }

  /** `parse`: an empty token list is an error; a leading `namespace`
      assignment sets the namespace; then the blocks. */
  function Parse(tokens: seq<Token>): (r: Parsed)
    ensures tokens == [] ==> r == Parsed(None, [], Some(NoTokens))
    ensures r.namespace.Some? ==> |tokens| >= 4 && tokens[0] == Ident("namespace")
  {
    if tokens == [] then Parsed(None, [], Some(NoTokens))
    else if tokens[0] == Ident("namespace") then
      var a := ParseAssignment(tokens, 0);
      if a.Stop? then Parsed(None, [], Some(a.error))
      else ParseBlocks(tokens, 4, Some(ValueToString(a.value.0.value)), [])
    else ParseBlocks(tokens, 0, None, [])
  }

  // ---- the parser as the source runs it ---------------------------------------

  /** `parseBlock` with its `while (peek().type !== "close-brace")` loop. */
  method ParseBlockAt(tokens: seq<Token>, start: nat) returns (r: Scan<(Block, nat)>)
    ensures r == ParseBlock(tokens, start)
  {
    var cursor := start;
    if cursor >= |tokens| {
      return Stop(EndOfTokens);
    }
    var first := tokens[cursor];
    cursor := cursor + 1;
    if !first.Ident? {
      return Stop(ExpectBlock);
    }
    var blockType := BlockTypeOf(first.s);
    if blockType.None? {
      return Stop(InvalidBlock);
    }
    if cursor >= |tokens| {
      return Stop(EndOfTokens);
    }
    var open := tokens[cursor];
    cursor := cursor + 1;
    if open != OpenBrace {
      return Stop(ExpectOpen);
    }
    var properties: seq<Property> := [];
    ghost var goal := ParseProperties(tokens, cursor, []);
    while true
      invariant ParseProperties(tokens, cursor, properties) == goal
      decreases |tokens| - cursor
    {
      if cursor >= |tokens| {
        return Stop(EndOfTokens);
      }
      if tokens[cursor] == CloseBrace {
        break;
      }
      var expression := ParseAssignment(tokens, cursor);
      if expression.Stop? {
        return Stop(expression.error);
      }
      cursor := expression.value.1;
      properties := SetProperty(properties, expression.value.0.key, expression.value.0.value);
    }
    return Next((Block(blockType.value, properties), cursor + 1));
  }

  /** `parse` with its `while (cursor < tokens.length && peek().type !== "EOF")`
      loop pushing blocks. */
  method ParseTokens(tokens: seq<Token>) returns (r: Parsed)
    ensures r == Parse(tokens)
  {
    if |tokens| == 0 {
      return Parsed(None, [], Some(NoTokens));
    }
    var cursor := 0;
    var namespace: Option<string> := None;
    if tokens[0] == Ident("namespace") {
      var a := ParseAssignment(tokens, 0);
      if a.Stop? {
        return Parsed(None, [], Some(a.error));
      }
      namespace := Some(ValueToString(a.value.0.value));
      cursor := a.value.1;
    }
    var blocks: seq<Block> := [];
    ghost var goal := ParseBlocks(tokens, cursor, namespace, []);
    while cursor < |tokens| && tokens[cursor] != Eof
      invariant ParseBlocks(tokens, cursor, namespace, blocks) == goal
      decreases |tokens| - cursor
    {
      var b := ParseBlockAt(tokens, cursor);
      if b.Stop? {
        return Parsed(namespace, blocks, Some(b.error));
      }
      blocks := blocks + [b.value.0];
      cursor := b.value.1;
    }
    return Parsed(namespace, blocks, None);
  }

  // ---- the serialiser -------------------------------------------------------

  /** `string.replace("\"", "\\\"")`: only the first quote is escaped. */
  function Escape(s: string): (r: string)
    ensures '"' !in s ==> r == s
    ensures |r| <= |s| + 1
  {
    if s == [] then []
    else if s[0] == '"' then "\\\"" + s[1..]
    else [s[0]] + Escape(s[1..])
  }

  /** The first quote, and only the first, becomes `\"`. */
  lemma {:induction false} EscapeFirstQuote(s: string, i: nat)
    requires i < |s| && s[i] == '"' && '"' !in s[..i]
    ensures Escape(s) == s[..i] + "\\\"" + s[i + 1..]
    decreases i
  {
    if i > 0 {
      assert s[0] in s[..i];
      assert s[1..][..i - 1] == s[1..i];
      assert '"' !in s[1..][..i - 1] by {
        forall c | c in s[1..i] ensures c in s[..i] {
          var k :| 0 <= k < i - 1 && s[1..i][k] == c;
          assert s[..i][k + 1] == c;
        }
      }
      EscapeFirstQuote(s[1..], i - 1);
      assert s[1..][i - 1 + 1..] == s[i + 1..];
      assert [s[0]] + s[1..][..i - 1] == s[..i];
    }
  }

  /** The text a property value is written as. */
  function Stringify(v: Value): string {
    match v
    case VBool(b) => if b then "true" else "false"
    case VNum(n) => IntToString(n)
    case VStr(s) => "\"" + Escape(s) + "\""
  }

  function PropertyLines(props: seq<Property>): (lines: seq<string>)
    ensures |lines| == |props|
    ensures forall i :: 0 <= i < |props| ==> lines[i] == props[i].key + " = " + Stringify(props[i].value) + ";"
  {
    seq(|props|, i requires 0 <= i < |props| => props[i].key + " = " + Stringify(props[i].value) + ";")
  }

  /** A block's lines: its type, `{`, one line per property, `}`. */
  function BlockLines(b: Block): seq<string> {
    [TypeName(b.blockType), "{"] + PropertyLines(b.properties) + ["}"]
  }

  function AllBlockLines(blocks: seq<Block>): seq<string> {
    if blocks == [] then [] else AllBlockLines(blocks[..|blocks| - 1]) + BlockLines(blocks[|blocks| - 1])
  }

  /** The lines of the `content` getter: the namespace line when the
      namespace is a non-empty string, then each block's lines. */
  function Lines(namespace: Option<string>, blocks: seq<Block>): (lines: seq<string>)
    ensures namespace.Some? && namespace.value != "" ==>
      |lines| > 0 && lines[0] == "namespace = \"" + Escape(namespace.value) + "\";"
  {
    (if namespace.Some? && namespace.value != "" then ["namespace = \"" + Escape(namespace.value) + "\";"] else [])
    + AllBlockLines(blocks)
  }

  /** `lines.join("\n")`. */
  function JoinLines(lines: seq<string>): string {
    if lines == [] then ""
    else if |lines| == 1 then lines[0]
    else JoinLines(lines[..|lines| - 1]) + "\n" + lines[|lines| - 1]
  }

  /** The `content` getter: the joined lines, UTF-8 encoded. */
  function Serialize(namespace: Option<string>, blocks: seq<Block>): seq<byte> {
    Utf8(JoinLines(Lines(namespace, blocks)))
  }

  lemma {:induction false} AllBlockLinesCount(blocks: seq<Block>)
    ensures |AllBlockLines(blocks)| == CountLines(blocks)
    decreases |blocks|
  {
    if blocks != [] {
      AllBlockLinesCount(blocks[..|blocks| - 1]);
    }
  }

  /** Three lines per block plus one per property. */
  function CountLines(blocks: seq<Block>): nat {
    if blocks == [] then 0 else CountLines(blocks[..|blocks| - 1]) + 3 + |blocks[|blocks| - 1].properties|
  }

  // ---- the round trip ---------------------------------------------------------

  /** The token a value is written as. */
  function ValueToken(v: Value): (t: Token)
    ensures ValueOf(t) == v
  {
    match v
    case VBool(b) => BoolTok(b)
    case VNum(n) => IntTok(n)
    case VStr(s) => StrTok(s)
  }

  /** The tokens of the property lines. */
  function PropertyTokens(props: seq<Property>): (ts: seq<Token>)
    ensures |ts| == 4 * |props|
  {
    if props == [] then []
    else PropertyLineTokens(props[0]) + PropertyTokens(props[1..])
  }

  /** The tokens of one property line. */
  function PropertyLineTokens(p: Property): seq<Token> {
    [Ident(p.key), AssignTok, ValueToken(p.value), EndStatement]
  }

  function BlockTokens(b: Block): (ts: seq<Token>)
    ensures |ts| == 4 * |b.properties| + 3
  {
    [Ident(TypeName(b.blockType)), OpenBrace] + PropertyTokens(b.properties) + [CloseBrace]
  }

  function AllBlockTokens(blocks: seq<Block>): seq<Token> {
    if blocks == [] then [] else BlockTokens(blocks[0]) + AllBlockTokens(blocks[1..])
  }

  /** The tokens of the namespace line, when there is one. */
  function NamespaceTokens(namespace: Option<string>): seq<Token> {
    if namespace.Some? then [Ident("namespace"), AssignTok, StrTok(namespace.value), EndStatement] else []
  }

  /** The tokens the serialised lines consist of, followed by EOF. */
  function TextmapTokens(namespace: Option<string>, blocks: seq<Block>): seq<Token> {
    NamespaceTokens(namespace) + (AllBlockTokens(blocks) + [Eof])
  }

  /** Keys are distinct and none is `__proto__`: what a parse produces. */
  predicate WellKeyed(props: seq<Property>) {
    (forall i :: 0 <= i < |props| ==> props[i].key != "__proto__")
    && (forall i, j :: 0 <= i < j < |props| ==> props[i].key != props[j].key)
  }

  /** Every block's keys are as a parse leaves them. */
  predicate AllWellKeyed(blocks: seq<Block>) {
    forall i :: 0 <= i < |blocks| ==> WellKeyed(blocks[i].properties)
  }

  /** The tokens from `cursor` on begin with `ts`. */
  predicate At(tokens: seq<Token>, cursor: nat, ts: seq<Token>)
    decreases |ts|
  {
    if ts == [] then cursor <= |tokens|
    else cursor < |tokens| && tokens[cursor] == ts[0] && At(tokens, cursor + 1, ts[1..])
  }

  lemma {:induction false} AtSplit(tokens: seq<Token>, cursor: nat, a: seq<Token>, b: seq<Token>)
    requires At(tokens, cursor, a + b)
    ensures At(tokens, cursor, a) && At(tokens, cursor + |a|, b)
    decreases |a|
  {
    if a == [] {
      assert a + b == b;
    } else {
      assert (a + b)[1..] == a[1..] + b;
      AtSplit(tokens, cursor + 1, a[1..], b);
    }
  }

  lemma {:induction false} AtIndex(tokens: seq<Token>, cursor: nat, ts: seq<Token>, k: nat)
    requires At(tokens, cursor, ts) && k < |ts|
    ensures cursor + k < |tokens| && tokens[cursor + k] == ts[k]
    decreases k
  {
    if k > 0 {
      AtIndex(tokens, cursor + 1, ts[1..], k - 1);
    }
  }

  /** The tokens from `i` on begin with themselves. */
  lemma {:induction false} AtRest(tokens: seq<Token>, i: nat)
    requires i <= |tokens|
    ensures At(tokens, i, tokens[i..])
    decreases |tokens| - i
  {
    if i < |tokens| {
      assert tokens[i..][1..] == tokens[i + 1..];
      AtRest(tokens, i + 1);
    }
  }

  lemma {:induction false} PropertiesRoundTrip(tokens: seq<Token>, cursor: nat, done: seq<Property>, props: seq<Property>)
    requires WellKeyed(done + props)
    requires At(tokens, cursor, PropertyTokens(props) + [CloseBrace])
    ensures ParseProperties(tokens, cursor, done) == Next((done + props, cursor + 4 * |props|))
    decreases |props|, 1
  {
    if props == [] {
      PropertiesEnd(tokens, cursor, done, props);
    } else {
      PropertiesSplit(tokens, cursor, done, props);
      PropertiesCons(tokens, cursor, done, props[0], props[1..]);
      AppendHead(done, props);
    }
  }

  /** The step of `PropertiesRoundTrip`: the first line read, then the rest
      as the induction hypothesis states. */
  lemma {:induction false} PropertiesCons(tokens: seq<Token>, cursor: nat, done: seq<Property>, p: Property, rest: seq<Property>)
    requires WellKeyed(done + [p] + rest) && At(tokens, cursor, PropertyLineTokens(p))
    requires At(tokens, cursor + 4, PropertyTokens(rest) + [CloseBrace])
    ensures ParseProperties(tokens, cursor, done) == Next((done + [p] + rest, cursor + 4 + 4 * |rest|))
    decreases |rest| + 1, 0
  {
    PropertiesRoundTrip(tokens, cursor + 4, done + [p], rest);
    FreshKeyAppended(done, p, rest);
    PropertiesHead(tokens, cursor, done, p);
  }

  /** The property loop reads a first property line, whose key is new, and
      goes on after it with the property added. */
  lemma {:induction false} PropertiesHead(tokens: seq<Token>, cursor: nat, done: seq<Property>, p: Property)
    requires SetProperty(done, p.key, p.value) == done + [p]
    requires At(tokens, cursor, PropertyLineTokens(p))
    ensures ParseProperties(tokens, cursor, done) == ParseProperties(tokens, cursor + 4, done + [p])
  {
    PropertyStep(tokens, cursor, p);
    PropertiesUnfold(tokens, cursor, done, p, cursor + 4);
  }

  /** The property loop stops at the close brace. */
  lemma {:induction false} PropertiesEnd(tokens: seq<Token>, cursor: nat, done: seq<Property>, props: seq<Property>)
    requires props == [] && At(tokens, cursor, PropertyTokens(props) + [CloseBrace])
    ensures ParseProperties(tokens, cursor, done) == Next((done + props, cursor + 4 * |props|))
  {
    AtIndex(tokens, cursor, PropertyTokens(props) + [CloseBrace], 0);
    assert done + props == done;
  }

  /** The tokens of non-empty property lines: the first line's, then the
      rest's. */
  lemma {:induction false} PropertiesSplit(tokens: seq<Token>, cursor: nat, done: seq<Property>, props: seq<Property>)
    requires props != [] && WellKeyed(done + props)
    requires At(tokens, cursor, PropertyTokens(props) + [CloseBrace])
    ensures At(tokens, cursor, PropertyLineTokens(props[0]))
    ensures At(tokens, cursor + 4, PropertyTokens(props[1..]) + [CloseBrace])
    ensures WellKeyed(done + [props[0]] + props[1..])
  {
    var line := PropertyLineTokens(props[0]);
    var rest := PropertyTokens(props[1..]) + [CloseBrace];
    assert PropertyTokens(props) + [CloseBrace] == line + rest;
    AtSplit(tokens, cursor, line, rest);
    AppendHead(done, props);
  }

  /** The property loop reads a property line and goes on after it. */
  lemma {:induction false} PropertyStep(tokens: seq<Token>, cursor: nat, p: Property)
    requires At(tokens, cursor, PropertyLineTokens(p))
    ensures cursor < |tokens| && tokens[cursor] != CloseBrace
    ensures ParseAssignment(tokens, cursor) == Next((p, cursor + 4))
  {
    AssignmentRead(tokens, cursor, p);
    AtIndex(tokens, cursor, PropertyLineTokens(p), 0);
  }

  /** One turn of the properties loop: an assignment read and set, then the
      rest. */
  lemma {:induction false} PropertiesUnfold(tokens: seq<Token>, cursor: nat, done: seq<Property>, p: Property, next: nat)
    requires cursor < |tokens| && tokens[cursor] != CloseBrace && ParseAssignment(tokens, cursor) == Next((p, next))
    ensures ParseProperties(tokens, cursor, done) == ParseProperties(tokens, next, SetProperty(done, p.key, p.value))
  {
  }

  /** The four tokens of a property line parse as that property. */
  lemma {:induction false} AssignmentRead(tokens: seq<Token>, cursor: nat, p: Property)
    requires At(tokens, cursor, PropertyLineTokens(p))
    ensures ParseAssignment(tokens, cursor) == Next((p, cursor + 4))
  {
    var four := PropertyLineTokens(p);
    AtIndex(tokens, cursor, four, 0);
    AtIndex(tokens, cursor, four, 1);
    AtIndex(tokens, cursor, four, 2);
    AtIndex(tokens, cursor, four, 3);
  }

  /** A key not yet set, and not `__proto__`, is appended. */
  lemma {:induction false} FreshKeyAppended(done: seq<Property>, p: Property, rest: seq<Property>)
    requires WellKeyed(done + [p] + rest)
    ensures SetProperty(done, p.key, p.value) == done + [p]
  {
    assert (done + [p] + rest)[|done|] == p;
    forall j | 0 <= j < |done| ensures done[j].key != p.key {
      assert (done + [p] + rest)[j] == done[j];
    }
    assert KeyIndex(done, p.key) < 0;
  }

  lemma {:induction false} BlockRoundTrip(tokens: seq<Token>, cursor: nat, b: Block)
    requires WellKeyed(b.properties)
    requires At(tokens, cursor, BlockTokens(b))
    ensures ParseBlock(tokens, cursor) == Next((b, cursor + |BlockTokens(b)|))
  {
    BlockOpening(tokens, cursor, b);
    PropertiesFromStart(tokens, cursor + 2, b.properties);
    BlockRead(tokens, cursor, b.blockType, b.properties, cursor + 2 + 4 * |b.properties|);
  }

  /** A block's tokens open with its type and `{`; its property lines and
      `}` follow. */
  lemma BlockOpening(tokens: seq<Token>, cursor: nat, b: Block)
    requires At(tokens, cursor, BlockTokens(b))
    ensures cursor + 1 < |tokens| && tokens[cursor] == Ident(TypeName(b.blockType)) && tokens[cursor + 1] == OpenBrace
    ensures At(tokens, cursor + 2, PropertyTokens(b.properties) + [CloseBrace])
  {
    var two := [Ident(TypeName(b.blockType)), OpenBrace];
    var rest := PropertyTokens(b.properties) + [CloseBrace];
    assert BlockTokens(b) == two + rest;
    AtSplit(tokens, cursor, two, rest);
    AtIndex(tokens, cursor, two, 0);
    AtIndex(tokens, cursor, two, 1);
  }

  lemma PropertiesFromStart(tokens: seq<Token>, cursor: nat, props: seq<Property>)
    requires WellKeyed(props) && At(tokens, cursor, PropertyTokens(props) + [CloseBrace])
    ensures ParseProperties(tokens, cursor, []) == Next((props, cursor + 4 * |props|))
  {
    assert [] + props == props;
    PropertiesRoundTrip(tokens, cursor, [], props);
  }

  /** A block type, `{`, and properties read up to `}` make a block. */
  lemma {:induction false} BlockRead(tokens: seq<Token>, cursor: nat, t: BlockType, props: seq<Property>, end: nat)
    requires cursor + 1 < |tokens| && tokens[cursor] == Ident(TypeName(t)) && tokens[cursor + 1] == OpenBrace
    requires ParseProperties(tokens, cursor + 2, []) == Next((props, end))
    ensures ParseBlock(tokens, cursor) == Next((Block(t, props), end + 1))
  {
    BlockTypeNamed(t);
  }

  lemma {:induction false} BlocksRoundTrip(tokens: seq<Token>, cursor: nat, namespace: Option<string>, done: seq<Block>, blocks: seq<Block>)
    requires AllWellKeyed(blocks)
    requires At(tokens, cursor, AllBlockTokens(blocks) + [Eof])
    ensures ParseBlocks(tokens, cursor, namespace, done) == Parsed(namespace, done + blocks, None)
    decreases |blocks|, 1
  {
    if blocks == [] {
      BlocksEnd(tokens, cursor, namespace, done, blocks);
    } else {
      BlocksSplit(tokens, cursor, blocks);
      BlocksCons(tokens, cursor, namespace, done, blocks[0], blocks[1..]);
      AppendHead(done, blocks);
    }
  }

  lemma {:induction false} BlocksCons(tokens: seq<Token>, cursor: nat, namespace: Option<string>, done: seq<Block>, b: Block, rest: seq<Block>)
    requires WellKeyed(b.properties) && At(tokens, cursor, BlockTokens(b))
    requires AllWellKeyed(rest) && At(tokens, cursor + |BlockTokens(b)|, AllBlockTokens(rest) + [Eof])
    ensures ParseBlocks(tokens, cursor, namespace, done) == Parsed(namespace, done + [b] + rest, None)
    decreases |rest| + 1, 0
  {
    BlockStep(tokens, cursor, b);
    BlocksUnfold(tokens, cursor, namespace, done, b, cursor + |BlockTokens(b)|);
    BlocksRoundTrip(tokens, cursor + |BlockTokens(b)|, namespace, done + [b], rest);
  }

  lemma {:induction false} AppendHead<T>(done: seq<T>, xs: seq<T>)
    requires xs != []
    ensures done + [xs[0]] + xs[1..] == done + xs
  {
  }

  /** The tokens of a non-empty run of blocks: the first block's, then the
      rest's. */
  lemma {:induction false} BlocksSplit(tokens: seq<Token>, cursor: nat, blocks: seq<Block>)
    requires blocks != [] && AllWellKeyed(blocks)
    requires At(tokens, cursor, AllBlockTokens(blocks) + [Eof])
    ensures WellKeyed(blocks[0].properties) && At(tokens, cursor, BlockTokens(blocks[0]))
    ensures AllWellKeyed(blocks[1..])
    ensures At(tokens, cursor + |BlockTokens(blocks[0])|, AllBlockTokens(blocks[1..]) + [Eof])
  {
    var bt := BlockTokens(blocks[0]);
    var rest := AllBlockTokens(blocks[1..]) + [Eof];
    assert AllBlockTokens(blocks) + [Eof] == bt + rest;
    AtSplit(tokens, cursor, bt, rest);
    forall i | 0 <= i < |blocks| - 1 ensures WellKeyed(blocks[1..][i].properties) {
      assert blocks[1..][i] == blocks[i + 1];
    }
  }

  /** The blocks loop stops at the end-of-file token. */
  lemma {:induction false} BlocksEnd(tokens: seq<Token>, cursor: nat, namespace: Option<string>, done: seq<Block>, blocks: seq<Block>)
    requires blocks == [] && At(tokens, cursor, AllBlockTokens(blocks) + [Eof])
    ensures ParseBlocks(tokens, cursor, namespace, done) == Parsed(namespace, done + blocks, None)
  {
    AtIndex(tokens, cursor, AllBlockTokens(blocks) + [Eof], 0);
    assert done + blocks == done;
  }

  /** The blocks loop reads a block's tokens as that block and goes on after
      them. */
  lemma {:induction false} BlockStep(tokens: seq<Token>, cursor: nat, b: Block)
    requires WellKeyed(b.properties) && At(tokens, cursor, BlockTokens(b))
    ensures cursor < |tokens| && tokens[cursor] != Eof
    ensures ParseBlock(tokens, cursor) == Next((b, cursor + |BlockTokens(b)|))
  {
    AtIndex(tokens, cursor, BlockTokens(b), 0);
    BlockRoundTrip(tokens, cursor, b);
  }

  /** One turn of the blocks loop: a block read, then the rest. */
  lemma {:induction false} BlocksUnfold(tokens: seq<Token>, cursor: nat, namespace: Option<string>, done: seq<Block>, b: Block, next: nat)
    requires cursor < |tokens| && tokens[cursor] != Eof && ParseBlock(tokens, cursor) == Next((b, next))
    ensures ParseBlocks(tokens, cursor, namespace, done) == ParseBlocks(tokens, next, namespace, done + [b])
  {
  }

  /** Parsing the token list that the serialised lines consist of gives the
      map back: its namespace and its blocks with their properties in order.
      The lexer that turns the text into tokens is not part of this model;
      `TextmapTokens` is the token list such a lexer is expected to produce
      for `Serialize(namespace, blocks)`, so this is a round trip through
      the parser, not through the text. */
  lemma {:induction false} ParseSerialized(namespace: Option<string>, blocks: seq<Block>)
    requires namespace.None? || namespace.value != ""
    requires AllWellKeyed(blocks)
    ensures Parse(TextmapTokens(namespace, blocks)) == Parsed(namespace, blocks, None)
  {
    var tokens := TextmapTokens(namespace, blocks);
    var head := NamespaceTokens(namespace);
    AtAfterPrefix(head, AllBlockTokens(blocks) + [Eof]);
    BlocksFromStart(tokens, |head|, namespace, blocks);
    ParseSkipsNamespace(tokens, namespace, blocks);
  }

  /** The tokens after a prefix begin with the rest. */
  lemma AtAfterPrefix(head: seq<Token>, body: seq<Token>)
    ensures At(head + body, |head|, body)
  {
    var tokens := head + body;
    AtRest(tokens, 0);
    assert tokens[0..] == head + body;
    AtSplit(tokens, 0, head, body);
  }

  lemma BlocksFromStart(tokens: seq<Token>, cursor: nat, namespace: Option<string>, blocks: seq<Block>)
    requires AllWellKeyed(blocks) && At(tokens, cursor, AllBlockTokens(blocks) + [Eof])
    ensures ParseBlocks(tokens, cursor, namespace, []) == Parsed(namespace, blocks, None)
  {
    assert [] + blocks == blocks;
    BlocksRoundTrip(tokens, cursor, namespace, [], blocks);
  }

  lemma {:induction false} ParseSkipsNamespace(tokens: seq<Token>, namespace: Option<string>, blocks: seq<Block>)
    requires tokens == TextmapTokens(namespace, blocks)
    ensures Parse(tokens) == ParseBlocks(tokens, |NamespaceTokens(namespace)|, namespace, [])
  {
    var head := NamespaceTokens(namespace);
    var body := AllBlockTokens(blocks) + [Eof];
    if namespace.Some? {
      assert tokens[..4] == head;
      NamespaceFirst(tokens, namespace.value);
    } else {
      assert tokens == body;
      if blocks != [] {
        assert body == BlockTokens(blocks[0]) + (AllBlockTokens(blocks[1..]) + [Eof]);
      }
      BlocksFirst(tokens);
    }
  }

  lemma {:induction false} NamespaceFirst(tokens: seq<Token>, namespace: string)
    requires |tokens| >= 4 && tokens[..4] == [Ident("namespace"), AssignTok, StrTok(namespace), EndStatement]
    ensures Parse(tokens) == ParseBlocks(tokens, 4, Some(namespace), [])
  {
    assert tokens[0] == Ident("namespace") && tokens[2] == StrTok(namespace);
    assert ParseAssignment(tokens, 0) == Next((Property("namespace", VStr(namespace)), 4));
    NamespaceUnfold(tokens, Property("namespace", VStr(namespace)));
  }

  /** A leading assignment is read as the namespace; the blocks follow it. */
  lemma {:induction false} NamespaceUnfold(tokens: seq<Token>, a: Property)
    requires tokens != [] && tokens[0] == Ident("namespace") && ParseAssignment(tokens, 0) == Next((a, 4))
    ensures Parse(tokens) == ParseBlocks(tokens, 4, Some(ValueToString(a.value)), [])
  {
  }

  lemma {:induction false} BlocksFirst(tokens: seq<Token>)
    requires tokens != [] && tokens[0] != Ident("namespace")
    ensures Parse(tokens) == ParseBlocks(tokens, 0, None, [])
  {
  }

  /** The parser accepts exactly the assignments whose keys it can store:
      `__proto__` assignments vanish. */
  lemma {:induction false} ProtoAssignmentDropped(props: seq<Property>, value: Value)
    ensures SetProperty(props, "__proto__", value) == props
  {
  }
}
