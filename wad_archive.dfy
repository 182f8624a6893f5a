/** The `Wad` object and the `Reader` and `Writer` that load it from and
    save it to a buffer, each advancing a cursor through the bytes. */
module WadArchive {
  import opened Wrappers
  import opened Text
  import opened Textmaps
  import opened Lumps
  import opened Wads

  /** The lumps as the writer sees them: name and content. */
  function EntriesOf(ls: seq<Lump>): (r: seq<Entry>)
    reads set l | l in ls
    ensures |r| == |ls|
    decreases |ls|
  {
    if ls == [] then [] else EntriesOf(ls[..|ls| - 1]) + [Entry(ls[|ls| - 1].name, ls[|ls| - 1].Content())]
  }

  /** Entry `i` is lump `i`'s name and content. */
  lemma {:induction false} EntryOfLump(ls: seq<Lump>, i: nat)
    requires i < |ls|
    ensures EntriesOf(ls)[i] == Entry(ls[i].name, ls[i].Content())
    decreases |ls|
  {
    if i < |ls| - 1 {
      EntryOfLump(ls[..|ls| - 1], i);
    }
  }

  /** What the lumps hold. */
  function ValuesOf(ls: seq<Lump>): (r: seq<LumpValue>)
    reads set l | l in ls
    ensures |r| == |ls|
    decreases |ls|
  {
    if ls == [] then [] else ValuesOf(ls[..|ls| - 1]) + [ls[|ls| - 1].Value()]
  }

  /** Lumps none of whose fields changed give the same entries. */
  twostate lemma {:induction false} EntriesKept(ls: seq<Lump>)
    requires forall l :: l in ls ==> unchanged(l)
    ensures EntriesOf(ls) == old(EntriesOf(ls))
  {
  }

  /** The three header fields written one after the other make up the
      header, or its refusal. */
  lemma {:induction false} HeaderWritten(t: WadType, es: seq<Entry>, w0: seq<byte>, w1: seq<byte>, w2: seq<byte>, w3: seq<byte>, err: Option<WriteError>)
    requires |es| <= INT32_MAX
    requires w1 == w0 + TypeBytes(t) && w2 == w1 + Le32(|es|)
    requires Wrote(Int32Bytes(HEADER_SIZE + TotalLength(es)), err, w2, w3)
    ensures Wrote(Header(t, es), err, w0, w3)
  {
    if err.None? {
      AppendAssoc(w0, TypeBytes(t), Le32(|es|));
      AppendAssoc(w0, TypeBytes(t) + Le32(|es|), Le32(HEADER_SIZE + TotalLength(es)));
    }
  }

  /** Lumps none of whose fields changed hold the same values. */
  twostate lemma {:induction false} ValuesKept(ls: seq<Lump>)
    requires forall l :: l in ls ==> unchanged(l)
    ensures ValuesOf(ls) == old(ValuesOf(ls))
  {
  }

  lemma {:induction false} ValuesSnoc(ls: seq<Lump>, l: Lump)
    ensures ValuesOf(ls + [l]) == ValuesOf(ls) + [l.Value()]
  {
    assert (ls + [l])[..|ls|] == ls;
  }

  lemma {:induction false} AppendAssoc(a: seq<byte>, b: seq<byte>, c: seq<byte>)
    ensures a + b + c == a + (b + c)
  {
  }

  /** Where the contents of the first `n` entries start, in order. */
  function Positions(es: seq<Entry>, n: nat): (r: seq<int>)
    requires n <= |es|
    ensures |r| == n
  {
    if n == 0 then [] else Positions(es, n - 1) + [Position(es, n - 1)]
  }

  lemma {:induction false} PositionsAt(es: seq<Entry>, n: nat, j: nat)
    requires j < n <= |es|
    ensures Positions(es, n)[j] == Position(es, j)
  {
    if j < n - 1 {
      PositionsAt(es, n - 1, j);
    }
  }

  /** One more entry adds its length and its content. */
  lemma {:induction false} PrefixStep(es: seq<Entry>, i: nat)
    requires i < |es|
    ensures TotalLength(es[..i + 1]) == TotalLength(es[..i]) + |es[i].content|
    ensures Contents(es[..i + 1]) == Contents(es[..i]) + es[i].content
  {
    assert es[..i + 1][..i] == es[..i];
  }

  /** What a write adds to the bytes written so far: nothing and the
      encoding's error, or the encoding's bytes. */
  predicate Wrote(r: Encoding, err: Option<WriteError>, before: seq<byte>, after: seq<byte>) {
    (r.Refused? ==> err == Some(r.error))
    && (r.Bytes? ==> err == None && after == before + r.value)
  }

  /** The header written, then the lumps and the dictionary: the whole
      image, or the first refusal. */
  lemma {:induction false} WroteImage(t: WadType, es: seq<Entry>, headerErr: Option<WriteError>, restErr: Option<WriteError>, afterHeader: seq<byte>, afterRest: seq<byte>)
    requires Wrote(Header(t, es), headerErr, [], afterHeader)
    requires headerErr.None? ==> Wrote(LumpsAndDictionary(es), restErr, afterHeader, afterRest)
    ensures headerErr.Some? ==> Wrote(Image(t, es), headerErr, [], afterHeader)
    ensures headerErr.None? ==> Wrote(Image(t, es), restErr, [], afterRest)
  {
    ImageOfParts(t, es);
  }

  /** The entry at `at` is the lump made of its name and bytes, or a
      `RangeError` when the entry does not fit. */
  lemma {:induction false} EntryMade(input: seq<byte>, registry: map<string, LumpKind>, lex: seq<byte> -> seq<Token>, at: nat,
                  entry: nat -> Read<LumpValue>, make: (string, seq<byte>) -> Read<LumpValue>)
    requires forall a: nat {:trigger LumpAt(input, registry, lex, a)} :: entry(a) == LumpAt(input, registry, lex, a)
    requires forall n, d {:trigger MakeLump(registry, lex, n, d)} :: make(n, d) == MakeLump(registry, lex, n, d)
    ensures at + ENTRY_SIZE > |input| ==> entry(at) == Failed(RangeError(OUT_OF_BOUNDS))
    ensures at + ENTRY_SIZE <= |input| ==>
      var position := Int32At(input, at);
      entry(at) == make(Latin1(input[at + 8..at + ENTRY_SIZE]), Slice(input, position, position + Int32At(input, at + 4)))
  {
    assert entry(at) == LumpAt(input, registry, lex, at);
    if at + ENTRY_SIZE <= |input| {
      var position := Int32At(input, at);
      var name := Latin1(input[at + 8..at + ENTRY_SIZE]);
      var data := Slice(input, position, position + Int32At(input, at + 4));
      assert make(name, data) == MakeLump(registry, lex, name, data);
    }
  }

  class Wad {
    var wadType: WadType
    var lumps: seq<Lump>

    /** A new WAD is an empty `PWAD`. */
    constructor()
      ensures wadType == PWAD && lumps == []
    {
      wadType := PWAD;
      lumps := [];
    }

    /** `lumpsTotalByteLength`: the lumps' lengths added up. */
    method LumpsTotalByteLength() returns (n: nat)
      ensures n == TotalLength(EntriesOf(lumps))
    {
      ghost var es := EntriesOf(lumps);
      n := 0;
      for i := 0 to |lumps|
        invariant n == TotalLength(es[..i])
      {
        PrefixStep(es, i);
        EntryOfLump(lumps, i);
        n := n + lumps[i].Length();
      }
      assert es[..|lumps|] == es;
    }

    /** `load`: a reader fills this WAD from `input`. */
    method Load(input: seq<byte>, factory: LumpFactory, lex: seq<byte> -> seq<Token>) returns (err: Option<WadError>)
      modifies this
      ensures var r := ReadWad(input, factory.classesByName, lex);
        err == r.error
        && wadType == (if r.wadType.Some? then r.wadType.value else old(wadType))
        && (r.lumps.Some? ==> ValuesOf(lumps) == r.lumps.value && forall l :: l in lumps ==> fresh(l))
        && (r.lumps.None? ==> lumps == old(lumps))
    {
      var reader := new Reader(this);
      err := reader.Read(input, factory, lex);
    }

    /** `save`: a buffer of `getBufferSize` bytes, filled by a writer. */
    method Save() returns (r: Read<array<byte>>)
      ensures var image := Image(wadType, EntriesOf(lumps));
        (image.Refused? ==> r == Failed(RangeError(WriteMessage(image.error))))
        && (image.Bytes? ==> r.Got? && fresh(r.value) && r.value[..] == image.value)
    {
      ghost var es := EntriesOf(lumps);
      var writer := new Writer(this);
      var size := writer.GetBufferSize();
      var result := new byte[size];
      var err := writer.Write(result, es);
      if err.Some? {
        return Failed(RangeError(WriteMessage(err.value)));
      }
      assert result[..] == result[..writer.cursor];
      return Got(result);
    }
  }

  class Reader {
    const wad: Wad
    var input: seq<byte>
    var cursor: nat
    var numLumps: int
    var dictionaryOffset: int

    constructor(wad: Wad)
      ensures this.wad == wad && input == [] && cursor == 0
      ensures numLumps == 0 && dictionaryOffset == 0
    {
      this.wad := wad;
      input := [];
      cursor := 0;
      numLumps := 0;
      dictionaryOffset := 0;
    }

    /** `seek`: a target outside the buffer is a `RangeError`. */
    method Seek(to: int) returns (err: Option<WadError>)
      modifies this
      ensures to < 0 || to >= |input| ==> err == Some(RangeError(SEEK_RANGE)) && cursor == old(cursor)
      ensures 0 <= to < |input| ==> err == None && cursor == to
      ensures input == old(input) && numLumps == old(numLumps) && dictionaryOffset == old(dictionaryOffset)
    {
      if to < 0 || to >= |input| {
        return Some(RangeError(SEEK_RANGE));
      }
      cursor := to;
      return None;
    }

    /** `readUint8`: the byte at the cursor; past the end a `RangeError`. */
    method ReadUint8() returns (r: Read<byte>)
      modifies this
      ensures old(cursor) < |input| ==> r == Got(input[old(cursor)]) && cursor == old(cursor) + 1
      ensures old(cursor) >= |input| ==> r == Failed(RangeError(OUT_OF_BOUNDS)) && cursor == old(cursor)
      ensures input == old(input) && numLumps == old(numLumps) && dictionaryOffset == old(dictionaryOffset)
    {
      if cursor >= |input| {
        return Failed(RangeError(OUT_OF_BOUNDS));
      }
      r := Got(input[cursor]);
      cursor := cursor + 1;
    }

    /** `readInt32`: the little-endian signed value at the cursor. */
    method ReadInt32() returns (r: Read<int>)
      modifies this
      ensures old(cursor) + 4 <= |input| ==> r == Got(Int32At(input, old(cursor))) && cursor == old(cursor) + 4
      ensures old(cursor) + 4 > |input| ==> r == Failed(RangeError(OUT_OF_BOUNDS)) && cursor == old(cursor)
      ensures input == old(input) && numLumps == old(numLumps) && dictionaryOffset == old(dictionaryOffset)
    {
      if cursor + 4 > |input| {
        return Failed(RangeError(OUT_OF_BOUNDS));
      }
      r := Got(Int32At(input, cursor));
      cursor := cursor + 4;
    }

    /** `readString`: `length` bytes as characters; running past the end is
        a `RangeError`, with the cursor left at the end. */
    method ReadString(length: nat) returns (r: Read<string>)
      modifies this
      ensures length == 0 ==> r == Got("") && cursor == old(cursor)
      ensures length > 0 && old(cursor) + length <= |input| ==>
        r == Got(Latin1(input[old(cursor)..old(cursor) + length])) && cursor == old(cursor) + length
      ensures length > 0 && old(cursor) + length > |input| ==>
        r == Failed(RangeError(OUT_OF_BOUNDS)) && cursor == (if old(cursor) < |input| then |input| else old(cursor))
      ensures input == old(input) && numLumps == old(numLumps) && dictionaryOffset == old(dictionaryOffset)
    {
      if length == 0 {
        return Got("");
      }
      var chars: seq<byte> := [];
      for i := 0 to length
        invariant cursor == old(cursor) + i
        invariant i == 0 ==> chars == []
        invariant i > 0 ==> cursor <= |input| && chars == input[old(cursor)..cursor]
        invariant input == old(input) && numLumps == old(numLumps) && dictionaryOffset == old(dictionaryOffset)
      {
        var b := ReadUint8();
        if b.Failed? {
          return Failed(b.error);
        }
        chars := chars + [b.value];
      }
      return Got(Latin1(chars));
    }

    /** `readHeader`: the type, which must be `IWAD` or `PWAD` and is stored
        at once, then the lump count and the dictionary offset. */
    method ReadHeader() returns (err: Option<WadError>)
      requires cursor == 0
      modifies this, wad
      ensures var h := HeaderType(input);
        (h.Failed? ==> err == Some(h.error) && wad.wadType == old(wad.wadType))
        && (h.Got? ==> wad.wadType == h.value)
        && (h.Got? && |input| < HEADER_SIZE ==> err == Some(RangeError(OUT_OF_BOUNDS)))
        && (h.Got? && |input| >= HEADER_SIZE ==>
              err == None && cursor == HEADER_SIZE
              && numLumps == Int32At(input, 4) && dictionaryOffset == Int32At(input, 8))
      ensures input == old(input) && wad.lumps == old(wad.lumps)
    {
      var typeName := ReadString(4);
      if typeName.Failed? {
        return Some(typeName.error);
      }
      assert input[..4] == input[0..4];
      if typeName.value == "IWAD" {
        wad.wadType := IWAD;
      } else if typeName.value == "PWAD" {
        wad.wadType := PWAD;
      } else {
        return Some(ParseError(BAD_TYPE));
      }
      var count := ReadInt32();
      if count.Failed? {
        return Some(count.error);
      }
      numLumps := count.value;
      var offset := ReadInt32();
      if offset.Failed? {
        return Some(offset.error);
      }
      dictionaryOffset := offset.value;
      return None;
    }

    /** `readDictionaryAndLumps`: seek to the dictionary, then read the
        entries and their lumps. */
    method ReadDictionaryAndLumps(factory: LumpFactory, lex: seq<byte> -> seq<Token>) returns (err: Option<WadError>)
      modifies this, wad
      ensures old(dictionaryOffset) < 0 || old(dictionaryOffset) >= |input| ==>
        err == Some(RangeError(SEEK_RANGE)) && wad.lumps == old(wad.lumps)
      ensures 0 <= old(dictionaryOffset) < |input| ==>
        var r := ReadLumps(EntryLumps(input, factory.classesByName, lex), old(dictionaryOffset), old(numLumps), []);
        (r.Failed? ==> err == Some(r.error) && wad.lumps == old(wad.lumps))
        && (r.Got? ==> err == None && ValuesOf(wad.lumps) == r.value && forall l :: l in wad.lumps ==> fresh(l))
      ensures input == old(input) && wad.wadType == old(wad.wadType)
    {
      err := Seek(dictionaryOffset);
      if err.Some? {
        return;
      }
      ghost var registry := factory.classesByName;
      ghost var make := (name: string, data: seq<byte>) => MakeLump(registry, lex, name, data);
      err := ReadEntries(factory, lex, EntryLumps(input, registry, lex), make);
    }

    /** The dictionary loop: for each entry, position, length and name, the
        lump created from the name and given the bytes; the lumps replace
        the WAD's only when all are read. `entry` is what the entry at each
        offset makes, `make` what the registry makes of a name and bytes. */
    method ReadEntries(factory: LumpFactory, lex: seq<byte> -> seq<Token>,
                       ghost entry: nat -> Read<LumpValue>, ghost make: (string, seq<byte>) -> Read<LumpValue>) returns (err: Option<WadError>)
      requires forall at: nat {:trigger LumpAt(input, factory.classesByName, lex, at)} :: entry(at) == LumpAt(input, factory.classesByName, lex, at)
      requires forall n, d {:trigger MakeLump(factory.classesByName, lex, n, d)} :: make(n, d) == MakeLump(factory.classesByName, lex, n, d)
      modifies this, wad
      ensures var r := ReadLumps(entry, old(cursor), numLumps, []);
        (r.Failed? ==> err == Some(r.error) && wad.lumps == old(wad.lumps))
        && (r.Got? ==> err == None && ValuesOf(wad.lumps) == r.value && forall l :: l in wad.lumps ==> fresh(l))
      ensures input == old(input) && numLumps == old(numLumps) && dictionaryOffset == old(dictionaryOffset)
      ensures wad.wadType == old(wad.wadType)
    {
      ghost var goal := ReadLumps(entry, cursor, numLumps, []);
      var lumps: seq<Lump> := [];
      ghost var values: seq<LumpValue> := [];
      var i := 0;
      while i < numLumps
        invariant 0 <= i && (numLumps > 0 ==> i <= numLumps)
        invariant ReadLumps(entry, cursor, numLumps - i, values) == goal
        invariant ValuesOf(lumps) == values
        invariant forall l :: l in lumps ==> fresh(l)
        invariant input == old(input) && numLumps == old(numLumps) && dictionaryOffset == old(dictionaryOffset)
        invariant wad.lumps == old(wad.lumps) && wad.wadType == old(wad.wadType)
        decreases numLumps - i
      {
        var next := ReadStep(factory, lex, entry, make, numLumps - i, values, goal, lumps);
        if next.Failed? {
          return Some(next.error);
        }
        lumps := next.value;
        values := ValuesOf(lumps);
        i := i + 1;
      }
      wad.lumps := lumps;
      err := None;
    }

    /** One pass of the dictionary loop, with `remaining` entries to go
        after reading the lumps `lumps` whose values are `values`: the lump
        read stops the loop or is added. */
    method ReadStep(factory: LumpFactory, lex: seq<byte> -> seq<Token>,
                    ghost entry: nat -> Read<LumpValue>, ghost make: (string, seq<byte>) -> Read<LumpValue>,
                    ghost remaining: int, ghost values: seq<LumpValue>, ghost goal: Read<seq<LumpValue>>,
                    lumps: seq<Lump>) returns (r: Read<seq<Lump>>)
      requires forall at: nat {:trigger LumpAt(input, factory.classesByName, lex, at)} :: entry(at) == LumpAt(input, factory.classesByName, lex, at)
      requires forall n, d {:trigger MakeLump(factory.classesByName, lex, n, d)} :: make(n, d) == MakeLump(factory.classesByName, lex, n, d)
      requires remaining > 0 && ReadLumps(entry, cursor, remaining, values) == goal
      requires ValuesOf(lumps) == values
      modifies this
      ensures r.Failed? ==> goal == Failed(r.error)
      ensures r.Got? ==>
        (forall l :: l in r.value ==> l in lumps || fresh(l))
        && ReadLumps(entry, cursor, remaining - 1, ValuesOf(r.value)) == goal
      ensures input == old(input) && numLumps == old(numLumps) && dictionaryOffset == old(dictionaryOffset)
    {
      ghost var at := cursor;
      var lump := ReadEntry(factory, lex, entry, make);
      if lump.Failed? {
        ReadLumpsFails(entry, at, remaining, values);
        return Failed(lump.error);
      }
      ReadLumpsNext(entry, at, remaining, values, lump.value.Value());
      ValuesKept(lumps);
      ValuesSnoc(lumps, lump.value);
      r := Got(lumps + [lump.value]);
    }

    /** One pass of the dictionary loop: position, length and name, then
        the lump made of them; the first read past the end stops it. */
    method ReadEntry(factory: LumpFactory, lex: seq<byte> -> seq<Token>,
                     ghost entry: nat -> Read<LumpValue>, ghost make: (string, seq<byte>) -> Read<LumpValue>) returns (r: Read<Lump>)
      requires forall at: nat {:trigger LumpAt(input, factory.classesByName, lex, at)} :: entry(at) == LumpAt(input, factory.classesByName, lex, at)
      requires forall n, d {:trigger MakeLump(factory.classesByName, lex, n, d)} :: make(n, d) == MakeLump(factory.classesByName, lex, n, d)
      modifies this
      ensures r.Failed? ==> entry(old(cursor)) == Failed(r.error)
      ensures r.Got? ==> fresh(r.value) && entry(old(cursor)) == Got(r.value.Value()) && cursor == old(cursor) + ENTRY_SIZE
      ensures input == old(input) && numLumps == old(numLumps) && dictionaryOffset == old(dictionaryOffset)
    {
      ghost var at := cursor;
      EntryMade(input, factory.classesByName, lex, at, entry, make);
      var fields := ReadEntryFields();
      if fields.Failed? {
        return Failed(fields.error);
      }
      var position, length, name := fields.value.0, fields.value.1, fields.value.2;
      var data := Slice(input, position, position + length);
      ghost var goal := entry(at);
      assert goal == make(name, data);
      r := CreateLump(factory, lex, name, data, make);
    }

    /** The position, length and name of the entry at the cursor; the first
        read past the end stops with a `RangeError`. */
    method ReadEntryFields() returns (r: Read<(int, int, string)>)
      modifies this
      ensures old(cursor) + ENTRY_SIZE > |input| ==> r == Failed(RangeError(OUT_OF_BOUNDS))
      ensures old(cursor) + ENTRY_SIZE <= |input| ==>
        r == Got((Int32At(input, old(cursor)), Int32At(input, old(cursor) + 4), Latin1(input[old(cursor) + 8..old(cursor) + ENTRY_SIZE])))
        && cursor == old(cursor) + ENTRY_SIZE
      ensures input == old(input) && numLumps == old(numLumps) && dictionaryOffset == old(dictionaryOffset)
    {
      var position := ReadInt32();
      if position.Failed? {
        return Failed(position.error);
      }
      var length := ReadInt32();
      if length.Failed? {
        return Failed(length.error);
      }
      var name := ReadString(NAME_SIZE);
      if name.Failed? {
        return Failed(name.error);
      }
      return Got((position.value, length.value, name.value));
    }

    /** The lump the factory creates for a name, given the bytes; `make`
        is what the registry makes of them. */
    method CreateLump(factory: LumpFactory, lex: seq<byte> -> seq<Token>, name: string, data: seq<byte>, ghost make: (string, seq<byte>) -> Read<LumpValue>) returns (r: Read<Lump>)
      requires forall n, d {:trigger MakeLump(factory.classesByName, lex, n, d)} :: make(n, d) == MakeLump(factory.classesByName, lex, n, d)
      ensures r.Failed? ==> make(name, data) == Failed(r.error)
      ensures r.Got? ==> fresh(r.value) && make(name, data) == Got(r.value.Value())
    {
      assert make(name, data) == MakeLump(factory.classesByName, lex, name, data);
      var created := factory.CreateFromName(name);
      if created.Err? {
        return Failed(LumpError(created.error));
      }
      var lump := created.value;
      var failed := lump.SetContent(data, lex);
      if failed.Some? {
        return Failed(LumpError(failed.value));
      }
      return Got(lump);
    }

    /** `read`: rewind, read the header and then the dictionary and lumps;
        a `RangeError` is reported as a `ParseError`. */
    method Read(input: seq<byte>, factory: LumpFactory, lex: seq<byte> -> seq<Token>) returns (err: Option<WadError>)
      modifies this, wad
      ensures var r := ReadWad(input, factory.classesByName, lex);
        err == r.error
        && wad.wadType == (if r.wadType.Some? then r.wadType.value else old(wad.wadType))
        && (r.lumps.Some? ==> ValuesOf(wad.lumps) == r.lumps.value && forall l :: l in wad.lumps ==> fresh(l))
        && (r.lumps.None? ==> wad.lumps == old(wad.lumps))
    {
      this.input := input;
      cursor := 0;
      err := ReadHeader();
      if err.None? {
        err := ReadDictionaryAndLumps(factory, lex);
      }
      if err.Some? {
        err := Some(Caught(err.value));
      }
    }
  }

  class Writer {
    const wad: Wad
    var output: array<byte>
    var cursor: nat
    /** The bytes written since the last rewind. */
    ghost var written: seq<byte>

    /** The bytes before the cursor are those written. */
    ghost predicate Valid()
      reads this, output
    {
      cursor == |written| <= output.Length && output[..cursor] == written
    }

    constructor(wad: Wad)
      ensures this.wad == wad && cursor == 0 && written == [] && Valid()
    {
      this.wad := wad;
      output := new byte[0];
      cursor := 0;
      written := [];
    }

    /** `getBufferSize`: twelve bytes of header, then sixteen bytes and the
        content of each lump. */
    method GetBufferSize() returns (size: nat)
      ensures size == BufferSize(EntriesOf(wad.lumps))
    {
      ghost var es := EntriesOf(wad.lumps);
      size := HEADER_SIZE;
      for i := 0 to |wad.lumps|
        invariant size == HEADER_SIZE + ENTRY_SIZE * i + TotalLength(es[..i])
      {
        PrefixStep(es, i);
        EntryOfLump(wad.lumps, i);
        size := size + ENTRY_SIZE;
        size := size + wad.lumps[i].Length();
      }
      assert es[..|wad.lumps|] == es;
    }

    /** `writeUint8`: a value outside a byte is a `RangeError`. */
    method WriteUint8(value: int) returns (err: Option<WriteError>)
      requires Valid() && cursor < output.Length
      modifies this, output
      ensures Valid() && output == old(output)
      ensures Wrote(ByteBytes(value), err, old(written), written)
      ensures err.Some? ==> written == old(written)
    {
      if value < 0 || value > 0xFF {
        return Some(InvalidByte(value));
      }
      output[cursor] := value;
      cursor := cursor + 1;
      written := written + [value];
      return None;
    }

    /** `writeInt32`: a value outside `0..0x7FFFFFFF` is a `RangeError`;
        otherwise four little-endian bytes. */
    method WriteInt32(value: int) returns (err: Option<WriteError>)
      requires Valid() && cursor + 4 <= output.Length
      modifies this, output
      ensures Valid() && output == old(output)
      ensures Wrote(Int32Bytes(value), err, old(written), written)
      ensures err.Some? ==> written == old(written)
    {
      if value < 0 || value > INT32_MAX {
        return Some(InvalidInt32(value));
      }
      var bytes := Le32(value);
      forall j | 0 <= j < 4 {
        output[cursor + j] := bytes[j];
      }
      cursor := cursor + 4;
      written := written + bytes;
      return None;
    }

    /** `writeString`: a byte per character; a character above `0xFF` is a
        `RangeError`, raised with the characters before it written. */
    method WriteString(s: string) returns (err: Option<WriteError>)
      requires Valid() && cursor + |s| <= output.Length
      modifies this, output
      ensures Valid() && output == old(output)
      ensures Wrote(StringBytes(s), err, old(written), written)
      ensures err.Some? ==> |written| == |old(written)| + FirstWide(s)
    {
      for i := 0 to |s|
        invariant Valid() && output == old(output) && |written| == |old(written)| + i
        invariant forall j :: 0 <= j < i ==> s[j] as int <= 0xFF
        invariant written[..|old(written)|] == old(written)
        invariant forall j :: 0 <= j < i ==> written[|old(written)| + j] == s[j] as int
      {
        var code := s[i] as int;
        if code > 0xFF {
          return Some(NotAscii(s[i]));
        }
        var _ := WriteUint8(code);
      }
      assert written == old(written) + StringBytes(s).value;
      return None;
    }

    /** `writePaddedString`: the string, then zeros up to `length`; a longer
        string is a `RangeError`. */
    method WritePaddedString(s: string, length: nat) returns (err: Option<WriteError>)
      requires Valid() && cursor + length <= output.Length
      modifies this, output
      ensures Valid() && output == old(output)
      ensures Wrote(PaddedBytes(s, length), err, old(written), written)
    {
      if |s| > length {
        return Some(StringTooLong);
      }
      err := WriteString(s);
      if err.Some? {
        return;
      }
      ghost var text := written;
      for i := |s| to length
        invariant Valid() && output == old(output) && written == text + Zeros(i - |s|)
      {
        var _ := WriteUint8(0);
        assert Zeros(i + 1 - |s|) == Zeros(i - |s|) + [0];
      }
      AppendAssoc(old(written), StringBytes(s).value, Zeros(length - |s|));
    }

    /** `writeArrayBuffer`: the bytes at the cursor; nothing for none. */
    method WriteArrayBuffer(data: seq<byte>)
      requires Valid() && cursor + |data| <= output.Length
      modifies this, output
      ensures Valid() && output == old(output)
      ensures written == old(written) + data
    {
      if |data| == 0 {
        assert written + data == written;
        return;
      }
      forall j | 0 <= j < |data| {
        output[cursor + j] := data[j];
      }
      cursor := cursor + |data|;
      written := written + data;
    }

    /** `writeHeader`: the type, the lump count, and the dictionary offset,
        which is the cursor plus four plus the lumps' total length. */
    method WriteHeader(ghost es: seq<Entry>) returns (err: Option<WriteError>)
      requires Valid() && cursor == 0 && HEADER_SIZE <= output.Length
      requires es == EntriesOf(wad.lumps)
      modifies this, output
      ensures Valid() && output == old(output) && es == EntriesOf(wad.lumps)
      ensures Wrote(Header(wad.wadType, es), err, old(written), written)
    {
      var t := wad.wadType;
      var count := |wad.lumps|;
      TypeBytesWritten(t);
      var typeWritten := WriteString(WadTypeName(t));
      ghost var afterType := written;
      assert afterType == old(written) + TypeBytes(t);
      err := WriteInt32(count);
      if err.Some? {
        assert Header(t, es) == Refused(InvalidInt32(count));
        return;
      }
      ghost var afterCount := written;
      assert afterCount == afterType + Le32(count);
      EntriesKept(wad.lumps);
      err := WriteOffset(es);
      HeaderWritten(t, es, old(written), afterType, afterCount, written, err);
    }

    /** The last field of the header: the cursor plus four plus the lumps'
        total length. */
    method WriteOffset(ghost es: seq<Entry>) returns (err: Option<WriteError>)
      requires Valid() && cursor == 8 && HEADER_SIZE <= output.Length
      requires es == EntriesOf(wad.lumps)
      modifies this, output
      ensures Valid() && output == old(output) && es == EntriesOf(wad.lumps)
      ensures Wrote(Int32Bytes(HEADER_SIZE + TotalLength(es)), err, old(written), written)
    {
      var total := wad.LumpsTotalByteLength();
      var offset := cursor + 4 + total;
      assert offset == HEADER_SIZE + TotalLength(es);
      err := WriteInt32(offset);
      EntriesKept(wad.lumps);
    }

    /** `writeLumpsAndDictionary`: the contents back to back, then a
        dictionary entry per lump. */
    method WriteLumpsAndDictionary(ghost es: seq<Entry>) returns (err: Option<WriteError>)
      requires Valid() && cursor == HEADER_SIZE && BufferSize(es) <= output.Length
      requires es == EntriesOf(wad.lumps)
      modifies this, output
      ensures Valid() && output == old(output) && es == EntriesOf(wad.lumps)
      ensures Wrote(LumpsAndDictionary(es), err, old(written), written)
    {
      var lumpPositions := WriteContents(es);
      ghost var contents := written;
      EntriesKept(wad.lumps);
      err := WriteDictionary(es, lumpPositions);
      if err.None? {
        AppendAssoc(old(written), Contents(es), Dictionary(es, |es|).value);
      }
    }

    /** The first loop of `writeLumpsAndDictionary`: each lump's content at
        the cursor, remembering where it starts. */
    method WriteContents(ghost es: seq<Entry>) returns (lumpPositions: seq<int>)
      requires Valid() && cursor == HEADER_SIZE && BufferSize(es) <= output.Length
      requires es == EntriesOf(wad.lumps)
      modifies this, output
      ensures Valid() && output == old(output) && es == EntriesOf(wad.lumps)
      ensures written == old(written) + Contents(es)
      ensures |lumpPositions| == |es| && forall j :: 0 <= j < |es| ==> lumpPositions[j] == Position(es, j)
    {
      lumpPositions := [];
      for i := 0 to |wad.lumps|
        invariant Valid() && output == old(output) && es == EntriesOf(wad.lumps)
        invariant TotalLength(es[..i]) <= TotalLength(es)
        invariant written == old(written) + Contents(es[..i])
        invariant lumpPositions == Positions(es, i)
      {
        PrefixStep(es, i);
        TotalLengthPrefix(es, i + 1);
        var position := WriteLumpContent(es, i);
        assert position == HEADER_SIZE + |Contents(es[..i])| == Position(es, i);
        lumpPositions := lumpPositions + [position];
        AppendAssoc(old(written), Contents(es[..i]), es[i].content);
      }
      assert es[..|es|] == es;
      forall j | 0 <= j < |es|
        ensures lumpPositions[j] == Position(es, j)
      {
        PositionsAt(es, |es|, j);
      }
    }

    /** One pass of that loop: the position, then the lump's content unless
        it is empty. */
    method WriteLumpContent(ghost es: seq<Entry>, i: nat) returns (position: int)
      requires Valid() && es == EntriesOf(wad.lumps) && i < |es|
      requires cursor + |es[i].content| <= output.Length
      modifies this, output
      ensures Valid() && output == old(output) && es == EntriesOf(wad.lumps)
      ensures position == old(cursor) && written == old(written) + es[i].content
    {
      position := cursor;
      EntryOfLump(wad.lumps, i);
      var content := wad.lumps[i].Content();
      if |content| == 0 {
        assert written + content == written;
        return;
      }
      WriteArrayBuffer(content);
      EntriesKept(wad.lumps);
    }

    /** The second loop of `writeLumpsAndDictionary`: position, length and
        padded name of each lump; the first refused value ends it. */
    method WriteDictionary(ghost es: seq<Entry>, lumpPositions: seq<int>) returns (err: Option<WriteError>)
      requires Valid() && cursor + ENTRY_SIZE * |es| <= output.Length
      requires es == EntriesOf(wad.lumps)
      requires |lumpPositions| == |es| && forall j :: 0 <= j < |es| ==> lumpPositions[j] == Position(es, j)
      modifies this, output
      ensures Valid() && output == old(output) && es == EntriesOf(wad.lumps)
      ensures Wrote(Dictionary(es, |es|), err, old(written), written)
    {
      for index := 0 to |wad.lumps|
        invariant Valid() && output == old(output) && es == EntriesOf(wad.lumps)
        invariant Dictionary(es, index).Bytes?
        invariant written == old(written) + Dictionary(es, index).value
        invariant cursor == old(cursor) + ENTRY_SIZE * index
      {
        err := WriteEntry(es, index, lumpPositions[index]);
        DictionaryNext(es, index);
        if err.Some? {
          DictionaryErrorKept(es, index + 1, |es|);
          return;
        }
        AppendAssoc(old(written), Dictionary(es, index).value, EntryBytes(Position(es, index), es[index]).value);
      }
      err := None;
    }

    /** One dictionary entry: position, content length, padded name. */
    method WriteEntry(ghost es: seq<Entry>, index: nat, position: int) returns (err: Option<WriteError>)
      requires Valid() && cursor + ENTRY_SIZE <= output.Length
      requires es == EntriesOf(wad.lumps) && index < |es|
      modifies this, output
      ensures Valid() && output == old(output) && es == EntriesOf(wad.lumps)
      ensures Wrote(EntryBytes(position, es[index]), err, old(written), written)
    {
      EntryOfLump(wad.lumps, index);
      var lump := wad.lumps[index];
      var length := lump.Length();
      var name := lump.name;
      err := WriteInt32(position);
      if err.Some? {
        return;
      }
      err := WriteInt32(length);
      if err.Some? {
        return;
      }
      err := WritePaddedString(name, NAME_SIZE);
      EntriesKept(wad.lumps);
      if err.None? {
        AppendAssoc(old(written), Le32(position), Le32(length));
        AppendAssoc(old(written), Le32(position) + Le32(length), PaddedBytes(name, NAME_SIZE).value);
      }
    }

    /** `write`: rewind, then the header, the contents and the dictionary. */
    method Write(output: array<byte>, ghost es: seq<Entry>) returns (err: Option<WriteError>)
      requires es == EntriesOf(wad.lumps) && BufferSize(es) <= output.Length
      modifies this, output
      ensures Valid() && this.output == output && es == EntriesOf(wad.lumps)
      ensures Wrote(Image(wad.wadType, es), err, [], written)
    {
      this.output := output;
      cursor := 0;
      written := [];
      err := WriteHeader(es);
      ghost var afterHeader := written;
      if err.Some? {
        WroteImage(wad.wadType, es, err, err, afterHeader, afterHeader);
        return;
      }
      err := WriteLumpsAndDictionary(es);
      WroteImage(wad.wadType, es, None, err, afterHeader, written);
    }
  }
}
