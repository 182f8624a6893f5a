/** Lumps, the named entries of a WAD archive, and the factory that picks a
    lump's class from its name. */
module Lumps {
  import opened Wrappers
  import opened Text
  import opened Textmaps

  const INVALID_NAME := "Invalid lump name"
  const NUL: char := '\0'

  /** The characters a lump name may hold: upper-case letters, digits and
      `[ ] - _ \`. */
  predicate NameChar(c: char) {
    ('A' <= c <= 'Z') || ('0' <= c <= '9') || c == '[' || c == ']' || c == '-' || c == '_' || c == '\\'
  }

  predicate ValidName(s: string) {
    |s| > 0 && forall i :: 0 <= i < |s| ==> NameChar(s[i])
  }

  /** `replace(/\0+$/g, "")`: the trailing NUL characters removed. */
  function StripNuls(s: string): (r: string)
    ensures |r| <= |s| && r == s[..|r|]
    ensures r != [] ==> r[|r| - 1] != NUL
    ensures forall i :: |r| <= i < |s| ==> s[i] == NUL
  {
    if s != [] && s[|s| - 1] == NUL then StripNuls(s[..|s| - 1]) else s
  }

  /** The name setter's clean-up: trimmed, then stripped of trailing NULs. */
  function Cleaned(value: string): string {
    StripNuls(Trim(value))
  }

  function Min(a: int, b: int): int { if a < b then a else b }

  /** Padded with NULs to eight characters. */
  function Padded(s: string): (r: string)
    requires |s| <= 8
    ensures |r| == 8 && r[..|s|] == s
    ensures forall i :: |s| <= i < 8 ==> r[i] == NUL
  {
    s + seq(8 - |s|, _ => NUL)
  }

  /** The `name` setter: a cleaned value of name characters is cut to eight
      characters and padded with NULs to eight; anything else is refused. */
  function NormalizeName(value: string): (r: Result<string>)
    ensures r.Ok? <==> ValidName(Cleaned(value))
    ensures r.Err? ==> r.error == INVALID_NAME
    ensures r.Ok? ==>
      var keep := Min(8, |Cleaned(value)|);
      |r.value| == 8 && r.value[..keep] == Cleaned(value)[..keep]
      && forall i :: keep <= i < 8 ==> r.value[i] == NUL
  {
    var v := Cleaned(value);
    if !ValidName(v) then Err(INVALID_NAME)
    else Ok(Padded(v[..Min(8, |v|)]))
  }

  lemma {:induction false} StripPadding(s: string)
    requires ValidName(s) && |s| <= 8
    ensures StripNuls(Padded(s)) == s
  {
    var p := Padded(s);
    var r := StripNuls(p);
    assert p[|s| - 1] == s[|s| - 1] != NUL;
    assert |r| >= |s|;
    assert r[|r| - 1] == p[|r| - 1];
  }

  /** A name of name characters and NULs that starts with a name character
      has nothing to trim. */
  lemma {:induction false} TrimName(p: string)
    requires p != [] && NameChar(p[0])
    requires forall i :: 0 <= i < |p| ==> NameChar(p[i]) || p[i] == NUL
    ensures Trim(p) == p
  {
    assert !IsJsSpace(p[0]) && !IsJsSpace(p[|p| - 1]);
  }

  /** A stored name cleans up to the name it was padded from. */
  lemma {:induction false} CleanedPadded(c: string)
    requires ValidName(c) && |c| <= 8
    ensures Cleaned(Padded(c)) == c
  {
    TrimName(Padded(c));
    StripPadding(c);
  }

  /** A stored name, set again, is stored unchanged. */
  lemma {:induction false} NameIdempotent(value: string)
    requires NormalizeName(value).Ok?
    ensures NormalizeName(NormalizeName(value).value) == NormalizeName(value)
  {
    var v := Cleaned(value);
    var c := v[..Min(8, |v|)];
    assert NormalizeName(value).value == Padded(c);
    CleanedPadded(c);
    assert c[..Min(8, |c|)] == c;
  }

  /** The names the setter stores: eight characters, a valid name padded
      with NULs. */
  predicate StoredName(name: string) {
    |name| == 8 && ValidName(StripNuls(name))
  }

  /** Every name the setter stores has that form. */
  lemma {:induction false} SetterStoresStoredName(value: string)
    requires NormalizeName(value).Ok?
    ensures StoredName(NormalizeName(value).value)
  {
    var v := Cleaned(value);
    var c := v[..Min(8, |v|)];
    assert NormalizeName(value).value == Padded(c);
    StripPadding(c);
  }

  /** A name of that form is kept as it is. */
  lemma {:induction false} StoredNameKept(name: string)
    requires StoredName(name)
    ensures NormalizeName(name) == Ok(name)
  {
    var c := StripNuls(name);
    var p := Padded(c);
    forall i | 0 <= i < 8 ensures name[i] == p[i] {
      if i < |c| {
        assert name[i] == c[i] == p[i];
      }
    }
    assert name == p;
    CleanedPadded(c);
    assert c[..Min(8, |c|)] == c;
  }

  // ---- the lump factory ----------------------------------------------------

  /** The class a lump is created as. */
  datatype LumpKind = PlainLump | TextmapLump

  predicate LineTerminator(c: char) {
    c == '\n' || c == '\r' || c == '\U{2028}' || c == '\U{2029}'
  }

  /** Where `/\0.*$/` matches: a NUL with no line terminator after it. */
  predicate NulTailAt(s: string, i: int) {
    0 <= i < |s| && s[i] == NUL && forall j :: i < j < |s| ==> !LineTerminator(s[j])
  }

  function NulTailFrom(s: string, from: nat): (i: int)
    ensures i == -1 || (from <= i && NulTailAt(s, i))
    ensures forall j :: from <= j && (i < 0 || j < i) ==> !NulTailAt(s, j)
    decreases |s| - from
  {
    if from >= |s| then -1
    else if NulTailAt(s, from) then from
    else NulTailFrom(s, from + 1)
  }

  /** `replace(/\0.*$/g, '')`: cut at the first NUL that only ordinary
      characters follow. */
  function CutAtNul(s: string): (r: string)
    ensures r == s || (NulTailAt(s, |r|) && r == s[..|r|])
    ensures forall j :: 0 <= j < |r| ==> !NulTailAt(s, j)
  {
    var i := NulTailFrom(s, 0);
    if i < 0 then s else s[..i]
  }

  /** The class `createFromName` picks: the one registered under the
      upper-cased, cut name, or the plain lump. */
  function KindFor(registry: map<string, LumpKind>, name: string): LumpKind {
    var key := Upper(CutAtNul(name));
    if key in registry then registry[key] else PlainLump
  }

  /** A stored name finds the class registered under the name it was set
      from, cut to eight characters. */
  lemma {:induction false} KindOfStoredName(registry: map<string, LumpKind>, value: string)
    requires NormalizeName(value).Ok?
    ensures var c := Cleaned(value)[..Min(8, |Cleaned(value)|)];
      KindFor(registry, NormalizeName(value).value) == if c in registry then registry[c] else PlainLump
  {
    var v := Cleaned(value);
    var c := v[..Min(8, |v|)];
    var p := NormalizeName(value).value;
    assert p == Padded(c);
    assert ValidName(c);
    forall j | 0 <= j < |c| ensures !NulTailAt(p, j) {
      assert p[j] == c[j];
    }
    if |c| < 8 {
      assert NulTailAt(p, |c|);
      assert CutAtNul(p) == c;
    } else {
      assert p == c;
      assert CutAtNul(p) == c;
    }
    assert Upper(c) == c;
  }

  /** What a lump holds, as a value. */
  datatype LumpValue = LumpValue(kind: LumpKind, name: string, data: seq<byte>, namespace: Option<string>, blocks: seq<Block>)

  /** A lump; a `TEXTMAP` lump also holds the map parsed from its content. */
  class Lump {
    const kind: LumpKind
    var name: string
    var data: seq<byte>
    var namespace: Option<string>
    var blocks: seq<Block>

    constructor(kind: LumpKind)
      ensures this.kind == kind && name == "" && data == []
      ensures namespace == None && blocks == []
    {
      this.kind := kind;
      name := "";
      data := [];
      namespace := None;
      blocks := [];
    }

    /** The `content` getter: the stored bytes, or for a `TEXTMAP` lump the
        serialised map. */
    function Content(): (r: seq<byte>)
      reads this
      ensures kind == PlainLump ==> r == data
    {
      if kind == PlainLump then data else Serialize(namespace, blocks)
    }

    function Value(): LumpValue
      reads this
    {
      LumpValue(kind, name, data, namespace, blocks)
    }

    /** `length`: the byte length of the content. */
    function Length(): (n: nat)
      reads this
      ensures n == |Content()|
    {
      |Content()|
    }

    /** The `name` setter; a refused name leaves the lump unchanged. */
    method SetName(value: string) returns (err: Option<string>)
      modifies this
      ensures NormalizeName(value).Ok? ==> err == None && name == NormalizeName(value).value
      ensures NormalizeName(value).Err? ==> err == Some(INVALID_NAME) && name == old(name)
      ensures data == old(data) && namespace == old(namespace) && blocks == old(blocks)
    {
      var r := NormalizeName(value);
      if r.Err? {
        return Some(r.error);
      }
      name := r.value;
      return None;
    }

    /** The `content` setter. A `TEXTMAP` lump forgets its map, stores the
        bytes, and parses the tokens `lex` finds in them; blocks read before
        a parse error are kept. */
    method SetContent(buffer: seq<byte>, lex: seq<byte> -> seq<Token>) returns (err: Option<string>)
      modifies this
      ensures data == buffer && name == old(name)
      ensures kind == PlainLump ==> err == None && namespace == old(namespace) && blocks == old(blocks)
      ensures kind == TextmapLump ==>
        var p := Parse(lex(buffer));
        namespace == p.namespace && blocks == p.blocks
        && err == if p.error.Some? then Some(Message(p.error.value)) else None
    {
      if kind == PlainLump {
        data := buffer;
        return None;
      }
      namespace := None;
      blocks := [];
      data := buffer;
      var parsed := ParseTokens(lex(buffer));
      namespace := parsed.namespace;
      blocks := parsed.blocks;
      if parsed.error.Some? {
        return Some(Message(parsed.error.value));
      }
      return None;
    }
  }

  /** The lump classes registered by name; one registry serves the whole
      program. */
  class LumpFactory {
    var classesByName: map<string, LumpKind>

    /** The registry as the program starts: `TEXTMAP` lumps are parsed. */
    constructor()
      ensures classesByName == map["TEXTMAP" := TextmapLump]
    {
      classesByName := map["TEXTMAP" := TextmapLump];
    }

    /** `registerClassForName`: registered under the upper-cased name. */
    method RegisterClassForName(name: string, kind: LumpKind)
      modifies this
      ensures classesByName == old(classesByName)[Upper(name) := kind]
    {
      classesByName := classesByName[Upper(name) := kind];
    }

    /** `createFromName`: a new lump of the class registered for the name,
        named through the `name` setter. */
    method CreateFromName(name: string) returns (r: Result<Lump>)
      ensures r.Ok? <==> NormalizeName(name).Ok?
      ensures r.Err? ==> r.error == INVALID_NAME
      ensures r.Ok? ==>
        fresh(r.value) && r.value.name == NormalizeName(name).value
        && r.value.kind == KindFor(classesByName, name) && r.value.data == []
        && r.value.namespace == None && r.value.blocks == []
    {
      var lump := new Lump(KindFor(classesByName, name));
      var err := lump.SetName(name);
      if err.Some? {
        return Err(err.value);
      }
      return Ok(lump);
    }
  }

  /** A `TEXTMAP` lump read back from a WAD under its stored name is created
      as a map lump. */
  lemma {:induction false} TextmapNameRegistered()
    ensures NormalizeName("TEXTMAP") == Ok("TEXTMAP\0")
    ensures KindFor(map["TEXTMAP" := TextmapLump], "TEXTMAP\0") == TextmapLump
  {
    var c := "TEXTMAP";
    assert ValidName(c);
    assert Padded(c) == "TEXTMAP\0";
    TrimName(c);
    StripPadding(c);
    assert Cleaned(c) == c;
    assert c[..Min(8, |c|)] == c;
    KindOfStoredName(map["TEXTMAP" := TextmapLump], c);
  }
}
