/** The WAD container: a 12-byte header (type, lump count, dictionary
    offset), the lump contents back to back, and a dictionary of 16-byte
    entries (position, length, NUL-padded eight-character name). All
    integers are little-endian signed 32-bit values. */
module Wads {
  import opened Wrappers
  import opened Text
  import opened Textmaps
  import opened Lumps

  datatype WadType = IWAD | PWAD

  function WadTypeName(t: WadType): string {
    match t
    case IWAD => "IWAD"
    case PWAD => "PWAD"
  }

  /** What reading or writing throws: a `ParseError`, a `RangeError`, or an
      error a lump throws while being named or filled. */
  datatype WadError = ParseError(message: string) | RangeError(message: string) | LumpError(message: string)

  datatype Read<T> = Got(value: T) | Failed(error: WadError)

  const EOF_MESSAGE := "End of file reached unexpectedly"
  const BAD_TYPE := "Invalid type in WAD header"
  const SEEK_RANGE := "Attempted to seek out of range"
  const OUT_OF_BOUNDS := "Offset is outside the bounds of the DataView"
  const STRING_TOO_LONG := "String exceeds maximum specified padded string length"
  const HEADER_SIZE := 12
  const ENTRY_SIZE := 16
  const NAME_SIZE := 8
  const INT32_MAX := 0x7FFF_FFFF

  /** What the writer refuses, each thrown as a `RangeError`. */
  datatype WriteError = InvalidInt32(value: int) | InvalidByte(value: int) | NotAscii(c: char) | StringTooLong

  /** The message the writer throws. */
  function WriteMessage(e: WriteError): (m: string)
    ensures e.InvalidInt32? ==> m == "Invalid 32-bit value " + IntToString(e.value)
    ensures e.InvalidByte? ==> m == "Invalid byte value " + IntToString(e.value)
    ensures e.NotAscii? ==> m == "Character " + [e.c] + " cannot be represented by an ASCII byte"
    ensures e.StringTooLong? ==> m == STRING_TOO_LONG
  {
    match e
    case InvalidInt32(v) => "Invalid 32-bit value " + IntToString(v)
    case InvalidByte(v) => "Invalid byte value " + IntToString(v)
    case NotAscii(c) => "Character " + [c] + " cannot be represented by an ASCII byte"
    case StringTooLong => STRING_TOO_LONG
  }

  /** Bytes the writer produces, or what it refuses. */
  datatype Encoding = Bytes(value: seq<byte>) | Refused(error: WriteError)

  // ---- bytes and integers -------------------------------------------------

  /** `DataView.getInt32(at, true)`. */
  function Int32At(input: seq<byte>, at: nat): (v: int)
    requires at + 4 <= |input|
    ensures -0x8000_0000 <= v <= INT32_MAX
  {
    var u := input[at] as int + 0x100 * input[at + 1] as int + 0x1_0000 * input[at + 2] as int + 0x100_0000 * input[at + 3] as int;
    if u >= 0x8000_0000 then u - 0x1_0000_0000 else u
  }

  /** The four bytes `DataView.setInt32(_, v, true)` writes for a value the
      writer accepts, least significant first. */
  function Le32(v: int): (r: seq<byte>)
    requires 0 <= v <= INT32_MAX
    ensures |r| == 4
  {
    [v % 0x100, v / 0x100 % 0x100, v / 0x1_0000 % 0x100, v / 0x100_0000]
  }

  /** `writeUint8`: one byte, refusing a value outside `0..0xFF`. */
  function ByteBytes(value: int): (r: Encoding)
    ensures r.Bytes? <==> 0 <= value <= 0xFF
  {
    if value < 0 || value > 0xFF then Refused(InvalidByte(value)) else Bytes([value])
  }

  /** `writeInt32`: four bytes, refusing a value outside `0..0x7FFFFFFF`. */
  function Int32Bytes(value: int): (r: Encoding)
    ensures r.Bytes? <==> 0 <= value <= INT32_MAX
    ensures r.Bytes? ==> |r.value| == 4
  {
    if value < 0 || value > INT32_MAX then Refused(InvalidInt32(value)) else Bytes(Le32(value))
  }

  /** `getInt32` reads back what `setInt32` wrote. */
  lemma {:induction false} Le32Read(input: seq<byte>, at: nat, v: int)
    requires 0 <= v <= INT32_MAX
    requires at + 4 <= |input|
    requires forall j :: 0 <= j < 4 ==> input[at + j] == Le32(v)[j]
    ensures Int32At(input, at) == v
  {
    var q1 := v / 0x100;
    var q2 := q1 / 0x100;
    var q3 := q2 / 0x100;
    assert q2 == v / 0x1_0000 && q3 == v / 0x100_0000;
    var b := Le32(v);
    assert input[at + 0] == b[0] == v % 0x100 && input[at + 1] == b[1] == q1 % 0x100;
    assert input[at + 2] == b[2] == q2 % 0x100 && input[at + 3] == b[3] == q3;
    assert v == v % 0x100 + 0x100 * q1;
    assert q1 == q1 % 0x100 + 0x100 * q2;
    assert q2 == q2 % 0x100 + 0x100 * q3;
  }

  /** `String.fromCharCode` applied to each byte. */
  function Latin1(bytes: seq<byte>): (s: string)
    ensures |s| == |bytes|
    ensures forall i :: 0 <= i < |bytes| ==> s[i] as int == bytes[i]
  {
    seq(|bytes|, i requires 0 <= i < |bytes| => bytes[i] as char)
  }

  /** The first character too wide for one byte, or the length. */
  function FirstWide(s: string): (i: nat)
    ensures i <= |s|
    ensures i < |s| ==> s[i] as int > 0xFF
    ensures forall j :: 0 <= j < i ==> s[j] as int <= 0xFF
  {
    if s == [] then 0
    else if s[0] as int > 0xFF then 0
    else 1 + FirstWide(s[1..])
  }

  /** `writeString`: one byte per character, refusing a character above
      0xFF. */
  function StringBytes(s: string): (r: Encoding)
    ensures r.Bytes? <==> FirstWide(s) == |s|
    ensures r.Bytes? ==> |r.value| == |s| && forall i :: 0 <= i < |s| ==> r.value[i] == s[i] as int
    ensures r.Refused? ==> r.error == NotAscii(s[FirstWide(s)])
  {
    var i := FirstWide(s);
    if i < |s| then Refused(NotAscii(s[i]))
    else Bytes(seq(|s|, j requires 0 <= j < |s| => s[j] as int))
  }

  function Zeros(n: nat): (r: seq<byte>)
    ensures |r| == n && forall i :: 0 <= i < n ==> r[i] == 0
  {
    seq(n, _ => 0)
  }

  /** `writePaddedString(s, length)`: too long a string is refused,
      otherwise the string's bytes and zeros up to `length`. */
  function PaddedBytes(s: string, length: nat): (r: Encoding)
    ensures r.Bytes? ==> |r.value| == length
    ensures |s| > length ==> r == Refused(StringTooLong)
  {
    if |s| > length then Refused(StringTooLong)
    else
      var b := StringBytes(s);
      if b.Refused? then Refused(b.error) else Bytes(b.value + Zeros(length - |s|))
  }

  function Clamp(i: int, len: nat): (r: nat)
    ensures r <= len
  {
    if i < 0 then (if len + i < 0 then 0 else len + i)
    else if i > len then len
    else i
  }

  /** `ArrayBuffer.prototype.slice`: negative indexes count from the end,
      both ends are clamped to the buffer, and an empty range gives no
      bytes. */
  function Slice(input: seq<byte>, start: int, end: int): (r: seq<byte>)
    ensures 0 <= start <= end <= |input| ==> r == input[start..end]
    ensures |r| <= |input|
  {
    var s := Clamp(start, |input|);
    var e := Clamp(end, |input|);
    if s < e then input[s..e] else []
  }

  // ---- reading ------------------------------------------------------------

  /** `readHeader`'s type: four bytes spelling `IWAD` or `PWAD`. */
  function HeaderType(input: seq<byte>): (r: Read<WadType>)
    ensures r.Got? ==> |input| >= 4 && Latin1(input[..4]) == WadTypeName(r.value)
  {
    if |input| < 4 then Failed(RangeError(OUT_OF_BOUNDS))
    else if Latin1(input[..4]) == "IWAD" then Got(IWAD)
    else if Latin1(input[..4]) == "PWAD" then Got(PWAD)
    else Failed(ParseError(BAD_TYPE))
  }

  /** The lump the factory makes for a dictionary entry: created from the
      entry's name, then given the bytes the entry points at. */
  function MakeLump(registry: map<string, LumpKind>, lex: seq<byte> -> seq<Token>, name: string, data: seq<byte>): Read<LumpValue>
  {
    var stored := NormalizeName(name);
    if stored.Err? then Failed(LumpError(stored.error))
    else
      var kind := KindFor(registry, name);
      if kind == PlainLump then Got(LumpValue(kind, stored.value, data, None, []))
      else
        var parsed := Parse(lex(data));
        if parsed.error.Some? then Failed(LumpError(Message(parsed.error.value)))
        else Got(LumpValue(kind, stored.value, data, parsed.namespace, parsed.blocks))
  }

  /** One pass of the dictionary loop: position, length and name, then the
      lump made of them. */
  function LumpAt(input: seq<byte>, registry: map<string, LumpKind>, lex: seq<byte> -> seq<Token>, at: nat): Read<LumpValue> {
    if at + ENTRY_SIZE > |input| then Failed(RangeError(OUT_OF_BOUNDS))
    else
      var position := Int32At(input, at);
      var length := Int32At(input, at + 4);
      MakeLump(registry, lex, Latin1(input[at + 8..at + ENTRY_SIZE]), Slice(input, position, position + length))
  }

  /** The lump the dictionary entry at each offset makes. */
  function EntryLumps(input: seq<byte>, registry: map<string, LumpKind>, lex: seq<byte> -> seq<Token>): nat -> Read<LumpValue> {
    (at: nat) => LumpAt(input, registry, lex, at)
  }

  /** The dictionary loop from `at` with `remaining` entries to go, after
      reading `read`; `entry(at)` is the lump the entry at `at` makes. A
      negative count reads nothing. */
  function ReadLumps(entry: nat -> Read<LumpValue>, at: nat, remaining: int, read: seq<LumpValue>): (r: Read<seq<LumpValue>>)
    decreases if remaining < 0 then 0 else remaining, 1
  {
    if remaining <= 0 then Got(read) else ReadFrom(entry, at, remaining, read)
  }

  /** One pass of that loop: the entry at `at` stops it or adds its lump. */
  function ReadFrom(entry: nat -> Read<LumpValue>, at: nat, remaining: nat, read: seq<LumpValue>): (r: Read<seq<LumpValue>>)
    requires remaining > 0
    decreases remaining, 0
  {
    var l := entry(at);
    if l.Failed? then Failed(l.error)
    else ReadLumps(entry, at + ENTRY_SIZE, remaining - 1, read + [l.value])
  }

  /** What `read` leaves: the type once the header's type is valid, the
      lumps once the whole dictionary is read, and the error thrown. */
  datatype Loaded = Loaded(wadType: Option<WadType>, lumps: Option<seq<LumpValue>>, error: Option<WadError>)

  /** `read`'s handler: a `RangeError` becomes a `ParseError`. */
  function Caught(e: WadError): (r: WadError)
    ensures !r.RangeError?
    ensures e.RangeError? ==> r == ParseError(EOF_MESSAGE)
    ensures !e.RangeError? ==> r == e
  {
    if e.RangeError? then ParseError(EOF_MESSAGE) else e
  }

  /** The dictionary loop stops at an entry that fails, with its error. */
  lemma {:induction false} ReadLumpsFails(entry: nat -> Read<LumpValue>, at: nat, remaining: int, read: seq<LumpValue>)
    requires remaining > 0 && entry(at).Failed?
    ensures ReadLumps(entry, at, remaining, read) == Failed(entry(at).error)
  {
  }

  /** An entry that makes a lump adds it and moves sixteen bytes on. */
  lemma {:induction false} ReadLumpsNext(entry: nat -> Read<LumpValue>, at: nat, remaining: int, read: seq<LumpValue>, lump: LumpValue)
    requires remaining > 0 && entry(at) == Got(lump)
    ensures ReadLumps(entry, at, remaining, read) == ReadLumps(entry, at + ENTRY_SIZE, remaining - 1, read + [lump])
  {
  }

  /** `Reader.read`: the header, a seek to the dictionary, then the
      dictionary and lumps. */
  function ReadWad(input: seq<byte>, registry: map<string, LumpKind>, lex: seq<byte> -> seq<Token>): (r: Loaded)
    ensures r.error.None? <==> r.lumps.Some?
    ensures r.error.Some? ==> !r.error.value.RangeError?
    ensures r.lumps.Some? ==> r.wadType.Some?
  {
    var t := HeaderType(input);
    if t.Failed? then Loaded(None, None, Some(Caught(t.error)))
    else if |input| < HEADER_SIZE then Loaded(Some(t.value), None, Some(ParseError(EOF_MESSAGE)))
    else
      var count := Int32At(input, 4);
      var offset := Int32At(input, 8);
      if offset < 0 || offset >= |input| then Loaded(Some(t.value), None, Some(ParseError(EOF_MESSAGE)))
      else
        var lumps := ReadLumps(EntryLumps(input, registry, lex), offset, count, []);
        if lumps.Failed? then Loaded(Some(t.value), None, Some(Caught(lumps.error)))
        else Loaded(Some(t.value), Some(lumps.value), None)
  }

  // ---- writing ------------------------------------------------------------

  /** A lump as the writer sees it: its name and its `content`. */
  datatype Entry = Entry(name: string, content: seq<byte>)

  /** `lumpsTotalByteLength`: the sum of the lumps' lengths. */
  function TotalLength(entries: seq<Entry>): nat {
    if entries == [] then 0
    else TotalLength(entries[..|entries| - 1]) + |entries[|entries| - 1].content|
  }

  /** `getBufferSize`: the header, then sixteen bytes and the content of
      each lump. */
  function BufferSize(entries: seq<Entry>): nat {
    HEADER_SIZE + ENTRY_SIZE * |entries| + TotalLength(entries)
  }

  /** The contents back to back. */
  function Contents(entries: seq<Entry>): (r: seq<byte>)
    ensures |r| == TotalLength(entries)
  {
    if entries == [] then []
    else Contents(entries[..|entries| - 1]) + entries[|entries| - 1].content
  }

  /** The position the dictionary records for lump `i`: where its content
      starts. */
  function Position(entries: seq<Entry>, i: nat): nat
    requires i <= |entries|
  {
    HEADER_SIZE + TotalLength(entries[..i])
  }

  /** One dictionary entry: position, length and padded name. */
  function EntryBytes(position: int, e: Entry): (r: Encoding)
    ensures r.Bytes? ==> |r.value| == ENTRY_SIZE
  {
    if position < 0 || position > INT32_MAX then Refused(InvalidInt32(position))
    else if |e.content| > INT32_MAX then Refused(InvalidInt32(|e.content|))
    else
      var name := PaddedBytes(e.name, NAME_SIZE);
      if name.Refused? then Refused(name.error)
      else Bytes(Le32(position) + Le32(|e.content|) + name.value)
  }

  /** The first `k` dictionary entries; the first refused entry's error. */
  function Dictionary(entries: seq<Entry>, k: nat): (r: Encoding)
    requires k <= |entries|
    ensures r.Bytes? ==> |r.value| == ENTRY_SIZE * k
  {
    if k == 0 then Bytes([])
    else
      var d := Dictionary(entries, k - 1);
      if d.Refused? then d
      else
        var e := EntryBytes(Position(entries, k - 1), entries[k - 1]);
        if e.Refused? then e else Bytes(d.value + e.value)
  }

  /** The four bytes of the type's name. */
  function TypeBytes(t: WadType): (r: seq<byte>)
    ensures |r| == 4
  {
    match t
    case IWAD => [0x49, 0x57, 0x41, 0x44]
    case PWAD => [0x50, 0x57, 0x41, 0x44]
  }

  /** `writeString` writes the type's name as those bytes, and they read
      back as the name. */
  lemma {:induction false} TypeBytesWritten(t: WadType)
    ensures StringBytes(WadTypeName(t)) == Bytes(TypeBytes(t))
    ensures Latin1(TypeBytes(t)) == WadTypeName(t)
  {
    var name := WadTypeName(t);
    assert FirstWide(name) == 4;
    assert StringBytes(name).value == TypeBytes(t);
    assert Latin1(TypeBytes(t)) == name;
  }

  /** The header: the type's four characters, the lump count, and the
      dictionary offset. */
  function HeaderBytes(t: WadType, count: nat, offset: nat): (r: seq<byte>)
    requires count <= INT32_MAX && offset <= INT32_MAX
    ensures |r| == HEADER_SIZE
  {
    TypeBytes(t) + Le32(count) + Le32(offset)
  }

  /** `writeHeader`: the type, the lump count and the dictionary offset;
      a count or offset beyond 32 bits is refused. */
  function Header(t: WadType, entries: seq<Entry>): (r: Encoding)
    ensures r.Bytes? ==> |r.value| == HEADER_SIZE
  {
    var count := |entries|;
    var offset := HEADER_SIZE + TotalLength(entries);
    if count > INT32_MAX then Refused(InvalidInt32(count))
    else if offset > INT32_MAX then Refused(InvalidInt32(offset))
    else Bytes(HeaderBytes(t, count, offset))
  }

  /** `writeLumpsAndDictionary`: the contents, then the dictionary. */
  function LumpsAndDictionary(entries: seq<Entry>): (r: Encoding)
    ensures r.Bytes? ==> |r.value| == TotalLength(entries) + ENTRY_SIZE * |entries|
  {
    var d := Dictionary(entries, |entries|);
    if d.Refused? then Refused(d.error) else Bytes(Contents(entries) + d.value)
  }

  /** What `save` produces: the whole file, or the `RangeError` the writer
      throws. */
  function Image(t: WadType, entries: seq<Entry>): (r: Encoding)
    ensures r.Bytes? ==> |r.value| == BufferSize(entries)
  {
    var count := |entries|;
    var offset := HEADER_SIZE + TotalLength(entries);
    if count > INT32_MAX then Refused(InvalidInt32(count))
    else if offset > INT32_MAX then Refused(InvalidInt32(offset))
    else
      var d := Dictionary(entries, count);
      if d.Refused? then Refused(d.error)
      else Bytes(HeaderBytes(t, count, offset) + Contents(entries) + d.value)
  }

  // ---- the layout of a saved file -------------------------------------------

  /** The first `k` lumps are no longer than all of them. */
  lemma {:induction false} TotalLengthPrefix(entries: seq<Entry>, k: nat)
    requires k <= |entries|
    ensures TotalLength(entries[..k]) <= TotalLength(entries)
    decreases |entries|
  {
    if k == |entries| {
      assert entries[..k] == entries;
    } else {
      var init := entries[..|entries| - 1];
      assert init[..k] == entries[..k];
      TotalLengthPrefix(init, k);
    }
  }

  lemma {:induction false} ContentsPrefix(entries: seq<Entry>, k: nat)
    requires k <= |entries|
    ensures TotalLength(entries[..k]) <= TotalLength(entries)
    ensures Contents(entries)[..TotalLength(entries[..k])] == Contents(entries[..k])
    decreases |entries|
  {
    if k == |entries| {
      assert entries[..k] == entries;
    } else {
      var init := entries[..|entries| - 1];
      assert init[..k] == entries[..k];
      ContentsPrefix(init, k);
    }
  }

  /** Lump `i`'s content sits at its recorded position, less the header. */
  lemma {:induction false} ContentAt(entries: seq<Entry>, i: nat)
    requires i < |entries|
    ensures TotalLength(entries[..i]) + |entries[i].content| <= TotalLength(entries)
    ensures Contents(entries)[TotalLength(entries[..i])..TotalLength(entries[..i]) + |entries[i].content|] == entries[i].content
  {
    var upTo := entries[..i + 1];
    assert upTo[..i] == entries[..i];
    assert Contents(upTo) == Contents(entries[..i]) + entries[i].content;
    ContentsPrefix(entries, i + 1);
    var c := Contents(entries);
    var a := TotalLength(entries[..i]);
    assert c[a..a + |entries[i].content|] == c[..TotalLength(upTo)][a..];
  }

  lemma {:induction false} DictionaryPrefix(entries: seq<Entry>, k: nat, m: nat)
    requires k <= m <= |entries| && Dictionary(entries, m).Bytes?
    ensures Dictionary(entries, k).Bytes?
    ensures Dictionary(entries, m).value[..ENTRY_SIZE * k] == Dictionary(entries, k).value
    decreases m
  {
    if k < m {
      DictionaryPrefix(entries, k, m - 1);
      var d := Dictionary(entries, m - 1).value;
      assert Dictionary(entries, m).value[..ENTRY_SIZE * (m - 1)] == d;
      assert Dictionary(entries, m).value[..ENTRY_SIZE * k] == d[..ENTRY_SIZE * k];
    }
  }

  /** Once an entry is refused, the dictionary stays refused with its
      error. */
  lemma {:induction false} DictionaryErrorKept(entries: seq<Entry>, k: nat, m: nat)
    requires k <= m <= |entries| && Dictionary(entries, k).Refused?
    ensures Dictionary(entries, m) == Dictionary(entries, k)
    decreases m
  {
    if k < m {
      DictionaryErrorKept(entries, k, m - 1);
    }
  }

  /** Entry `i` of the dictionary is the sixteen bytes at `16 i`. */
  lemma {:induction false} DictionaryAt(entries: seq<Entry>, i: nat)
    requires i < |entries| && Dictionary(entries, |entries|).Bytes?
    ensures EntryBytes(Position(entries, i), entries[i]).Bytes?
    ensures Dictionary(entries, |entries|).value[ENTRY_SIZE * i..ENTRY_SIZE * i + ENTRY_SIZE]
      == EntryBytes(Position(entries, i), entries[i]).value
  {
    DictionaryPrefix(entries, i + 1, |entries|);
    var before := Dictionary(entries, i);
    var e := EntryBytes(Position(entries, i), entries[i]);
    assert Dictionary(entries, i + 1).value == before.value + e.value;
    SliceAfterPrefix(Dictionary(entries, |entries|).value, before.value, e.value);
  }

  /** A sequence that starts with `pre + e` holds `e` right after `pre`. */
  lemma SliceAfterPrefix(d: seq<byte>, pre: seq<byte>, e: seq<byte>)
    requires |pre + e| <= |d| && d[..|pre + e|] == pre + e
    ensures d[|pre|..|pre| + |e|] == e
  {
    assert d[|pre|..|pre| + |e|] == (pre + e)[|pre|..];
  }

  lemma {:induction false} StoredNameBytes(name: string)
    requires StoredName(name)
    ensures PaddedBytes(name, NAME_SIZE).Bytes? && Latin1(PaddedBytes(name, NAME_SIZE).value) == name
  {
    var c := StripNuls(name);
    forall i | 0 <= i < |name| ensures name[i] as int <= 0x7F {
      if i < |c| {
        assert name[i] == c[i] && NameChar(c[i]);
      }
    }
    assert FirstWide(name) == |name|;
  }

  /** Every lump carries a name the `name` setter stores. */
  predicate AllStored(entries: seq<Entry>) {
    forall i :: 0 <= i < |entries| ==> StoredName(entries[i].name)
  }

  /** No lump's name has a class registered for it. */
  predicate AllPlain(registry: map<string, LumpKind>, entries: seq<Entry>) {
    forall i :: 0 <= i < |entries| ==> KindFor(registry, entries[i].name) == PlainLump
  }

  /** With stored names and offsets in range, the writer throws nothing. */
  lemma {:induction false} SavableImage(t: WadType, entries: seq<Entry>)
    requires |entries| <= INT32_MAX && HEADER_SIZE + TotalLength(entries) <= INT32_MAX
    requires AllStored(entries)
    ensures Image(t, entries).Bytes?
  {
    StoredNamesEncode(entries);
    DictionaryOk(entries, |entries|);
    ImageOk(t, entries);
  }

  lemma {:induction false} ImageOk(t: WadType, entries: seq<Entry>)
    requires |entries| <= INT32_MAX && HEADER_SIZE + TotalLength(entries) <= INT32_MAX
    requires Dictionary(entries, |entries|).Bytes?
    ensures Image(t, entries).Bytes?
  {
  }

  /** Every name fits the eight bytes of a dictionary entry. */
  predicate NamesEncode(entries: seq<Entry>) {
    forall i :: 0 <= i < |entries| ==> PaddedBytes(entries[i].name, NAME_SIZE).Bytes?
  }

  lemma {:induction false} StoredNamesEncode(entries: seq<Entry>)
    requires AllStored(entries)
    ensures NamesEncode(entries)
  {
    forall i | 0 <= i < |entries| ensures PaddedBytes(entries[i].name, NAME_SIZE).Bytes? {
      StoredNameBytes(entries[i].name);
    }
  }

  lemma {:induction false} EntryOk(position: nat, e: Entry)
    requires position <= INT32_MAX && |e.content| <= INT32_MAX && PaddedBytes(e.name, NAME_SIZE).Bytes?
    ensures EntryBytes(position, e).Bytes?
  {
  }

  lemma {:induction false} DictionaryOk(entries: seq<Entry>, k: nat)
    requires k <= |entries| && HEADER_SIZE + TotalLength(entries) <= INT32_MAX
    requires NamesEncode(entries)
    ensures Dictionary(entries, k).Bytes?
    decreases k
  {
    if k > 0 {
      DictionaryOk(entries, k - 1);
      EntryFits(entries, k - 1);
      DictionaryStep(entries, k - 1);
    }
  }

  /** Entry `i` fits a dictionary whose file stays within 32 bits. */
  lemma {:induction false} EntryFits(entries: seq<Entry>, i: nat)
    requires i < |entries| && HEADER_SIZE + TotalLength(entries) <= INT32_MAX
    requires NamesEncode(entries)
    ensures EntryBytes(Position(entries, i), entries[i]).Bytes?
  {
    ContentAt(entries, i);
    EntryOk(Position(entries, i), entries[i]);
  }

  /** The next dictionary entry either is refused, refusing the dictionary
      with its error, or is appended. */
  lemma {:induction false} DictionaryNext(entries: seq<Entry>, k: nat)
    requires k < |entries| && Dictionary(entries, k).Bytes?
    ensures var e := EntryBytes(Position(entries, k), entries[k]);
      (e.Refused? ==> Dictionary(entries, k + 1) == e)
      && (e.Bytes? ==> Dictionary(entries, k + 1) == Bytes(Dictionary(entries, k).value + e.value))
  {
  }

  lemma {:induction false} DictionaryStep(entries: seq<Entry>, k: nat)
    requires k < |entries| && Dictionary(entries, k).Bytes?
    requires EntryBytes(Position(entries, k), entries[k]).Bytes?
    ensures Dictionary(entries, k + 1).Bytes?
  {
  }

  /** The header reads back as the type, count and offset written. */
  lemma {:induction false} HeaderReadBack(t: WadType, count: nat, offset: nat, rest: seq<byte>)
    requires count <= INT32_MAX && offset <= INT32_MAX
    ensures var input := HeaderBytes(t, count, offset) + rest;
      HeaderType(input) == Got(t) && Int32At(input, 4) == count && Int32At(input, 8) == offset
  {
    var input := HeaderBytes(t, count, offset) + rest;
    var name := TypeBytes(t);
    assert input[..4] == name;
    TypeBytesWritten(t);
    forall j | 0 <= j < 4 ensures input[4 + j] == Le32(count)[j] && input[8 + j] == Le32(offset)[j] {
    }
    Le32Read(input, 4, count);
    Le32Read(input, 8, offset);
  }

  /** What loading a saved lump gives: a plain lump with its name and
      bytes. */
  function Reloaded(entries: seq<Entry>): (r: seq<LumpValue>)
    ensures |r| == |entries|
  {
    seq(|entries|, i requires 0 <= i < |entries| => LumpValue(PlainLump, entries[i].name, entries[i].content, None, []))
  }

  lemma {:induction false} SliceOfThird(h: seq<byte>, c: seq<byte>, d: seq<byte>, i: nat, n: nat)
    requires i + n <= |d|
    ensures (h + c + d)[|h| + |c| + i..|h| + |c| + i + n] == d[i..i + n]
  {
  }

  lemma {:induction false} SliceOfSecond(h: seq<byte>, c: seq<byte>, d: seq<byte>, i: nat, n: nat)
    requires i + n <= |c|
    ensures (h + c + d)[|h| + i..|h| + i + n] == c[i..i + n]
  {
  }

  /** The fields of a dictionary entry read back as written. */
  lemma {:induction false} EntryFields(input: seq<byte>, at: nat, position: nat, e: Entry)
    requires EntryBytes(position, e).Bytes? && |e.name| == NAME_SIZE
    requires at + ENTRY_SIZE <= |input|
    requires input[at..at + ENTRY_SIZE] == EntryBytes(position, e).value
    ensures Int32At(input, at) == position && Int32At(input, at + 4) == |e.content|
    ensures Latin1(input[at + 8..at + ENTRY_SIZE]) == e.name
  {
    var bytes := EntryBytes(position, e).value;
    forall j | 0 <= j < ENTRY_SIZE ensures input[at + j] == bytes[j] {
      assert input[at..at + ENTRY_SIZE][j] == input[at + j];
    }
    var name := PaddedBytes(e.name, NAME_SIZE).value;
    var p := Le32(position);
    var l := Le32(|e.content|);
    assert bytes == p + l + name;
    forall j | 0 <= j < 4 ensures input[at + j] == p[j] && input[at + 4 + j] == l[j] {
      assert input[at + j] == bytes[j];
      assert input[at + 4 + j] == bytes[4 + j];
    }
    Le32Read(input, at, position);
    Le32Read(input, at + 4, |e.content|);
    var read := Latin1(input[at + 8..at + ENTRY_SIZE]);
    forall j | 0 <= j < NAME_SIZE ensures read[j] == e.name[j] {
      assert input[at + 8 + j] == bytes[8 + j] == name[j];
    }
  }

  /** A lump under a stored name of no registered class is a plain lump
      keeping its name and bytes. */
  lemma {:induction false} PlainLumpMade(registry: map<string, LumpKind>, lex: seq<byte> -> seq<Token>, name: string, data: seq<byte>)
    requires StoredName(name) && KindFor(registry, name) == PlainLump
    ensures MakeLump(registry, lex, name, data) == Got(LumpValue(PlainLump, name, data, None, []))
  {
    StoredNameKept(name);
  }

  /** The dictionary entry at `at` names `e` and points at its bytes. */
  predicate EntryAt(input: seq<byte>, at: nat, e: Entry) {
    at + ENTRY_SIZE <= |input|
    && Latin1(input[at + 8..at + ENTRY_SIZE]) == e.name
    && Slice(input, Int32At(input, at), Int32At(input, at) + Int32At(input, at + 4)) == e.content
  }

  lemma {:induction false} LumpAtFields(input: seq<byte>, registry: map<string, LumpKind>, lex: seq<byte> -> seq<Token>, at: nat, e: Entry)
    requires EntryAt(input, at, e)
    ensures LumpAt(input, registry, lex, at) == MakeLump(registry, lex, e.name, e.content)
  {
  }

  /** An entry naming a lump of a stored name and no registered class reads
      back as a plain lump with that name and those bytes. */
  lemma {:induction false} EntryReadBack(input: seq<byte>, at: nat, e: Entry, registry: map<string, LumpKind>, lex: seq<byte> -> seq<Token>)
    requires EntryAt(input, at, e)
    requires StoredName(e.name) && KindFor(registry, e.name) == PlainLump
    ensures LumpAt(input, registry, lex, at) == Got(LumpValue(PlainLump, e.name, e.content, None, []))
  {
    LumpAtFields(input, registry, lex, at, e);
    PlainLumpMade(registry, lex, e.name, e.content);
  }

  lemma {:induction false} SliceWhole(input: seq<byte>, start: nat, bytes: seq<byte>)
    requires start + |bytes| <= |input| && input[start..start + |bytes|] == bytes
    ensures Slice(input, start, start + |bytes|) == bytes
  {
  }

  /** A saved file is its header, the contents and the dictionary. */
  lemma {:induction false} ImageParts(t: WadType, entries: seq<Entry>, image: seq<byte>, offset: nat)
    requires Image(t, entries) == Bytes(image) && offset == HEADER_SIZE + TotalLength(entries)
    ensures |entries| <= INT32_MAX && offset <= INT32_MAX && Dictionary(entries, |entries|).Bytes?
    ensures image == HeaderBytes(t, |entries|, offset) + Contents(entries) + Dictionary(entries, |entries|).value
  {
  }

  /** `write` is `writeHeader` followed by `writeLumpsAndDictionary`: the
      file is the header, then the contents and the dictionary, and the
      first refusal is the error `save` throws. */
  lemma {:induction false} ImageOfParts(t: WadType, entries: seq<Entry>)
    ensures var h := Header(t, entries);
      h.Refused? ==> Image(t, entries) == Refused(h.error)
    ensures var h := Header(t, entries); var b := LumpsAndDictionary(entries);
      h.Bytes? && b.Refused? ==> Image(t, entries) == Refused(b.error)
    ensures var h := Header(t, entries); var b := LumpsAndDictionary(entries);
      h.Bytes? && b.Bytes? ==> Image(t, entries) == Bytes(h.value + b.value)
  {
    var h := Header(t, entries);
    var b := LumpsAndDictionary(entries);
    if h.Bytes? && b.Bytes? {
      var d := Dictionary(entries, |entries|).value;
      assert h.value + b.value == h.value + (Contents(entries) + d);
      assert (h.value + Contents(entries)) + d == h.value + (Contents(entries) + d);
      assert Image(t, entries) == Bytes(h.value + Contents(entries) + d);
    }
  }

  /** The sixteen bytes written for `e` at `position`, with `e`'s bytes at
      `position`, read back as naming `e` and pointing at its bytes. */
  lemma {:induction false} PlacedEntryAt(image: seq<byte>, at: nat, position: nat, e: Entry)
    requires EntryBytes(position, e).Bytes? && |e.name| == NAME_SIZE
    requires at + ENTRY_SIZE <= |image| && image[at..at + ENTRY_SIZE] == EntryBytes(position, e).value
    requires position + |e.content| <= |image| && image[position..position + |e.content|] == e.content
    ensures EntryAt(image, at, e)
  {
    SliceWhole(image, position, e.content);
    EntryFields(image, at, position, e);
  }

  /** Every entry of a saved file names its lump and points at its bytes. */
  lemma {:induction false} DictionaryDecoded(t: WadType, entries: seq<Entry>, image: seq<byte>, offset: nat)
    requires Image(t, entries) == Bytes(image) && offset == HEADER_SIZE + TotalLength(entries) && NamesFit(entries)
    ensures forall i :: 0 <= i < |entries| ==> EntryAt(image, offset + ENTRY_SIZE * i, entries[i])
  {
    forall i | 0 <= i < |entries|
      ensures EntryAt(image, offset + ENTRY_SIZE * i, entries[i])
    {
      EntryDecoded(t, entries, image, offset, i);
    }
  }

  /** Every name is eight characters long. */
  predicate NamesFit(entries: seq<Entry>) {
    forall i :: 0 <= i < |entries| ==> |entries[i].name| == NAME_SIZE
  }

  lemma {:induction false} StoredNamesFit(entries: seq<Entry>)
    requires AllStored(entries)
    ensures NamesFit(entries)
  {
    forall i | 0 <= i < |entries| ensures |entries[i].name| == NAME_SIZE {
      assert StoredName(entries[i].name);
    }
  }

  /** Entry `k` of a saved file names lump `k` and points at its bytes. */
  lemma {:induction false} EntryDecoded(t: WadType, entries: seq<Entry>, image: seq<byte>, offset: nat, k: nat)
    requires Image(t, entries) == Bytes(image) && offset == HEADER_SIZE + TotalLength(entries) && NamesFit(entries)
    requires k < |entries|
    ensures EntryAt(image, offset + ENTRY_SIZE * k, entries[k])
  {
    ImageParts(t, entries, image, offset);
    assert |entries[k].name| == NAME_SIZE;
    PartsDecoded(HeaderBytes(t, |entries|, offset), entries, image, offset, k);
  }

  /** Entry `k` behind a twelve-byte header names lump `k` and points at its
      bytes. */
  lemma {:induction false} PartsDecoded(header: seq<byte>, entries: seq<Entry>, image: seq<byte>, offset: nat, k: nat)
    requires |header| == HEADER_SIZE && k < |entries| && Dictionary(entries, |entries|).Bytes?
    requires image == header + Contents(entries) + Dictionary(entries, |entries|).value
    requires offset == HEADER_SIZE + TotalLength(entries) && |entries[k].name| == NAME_SIZE
    ensures EntryAt(image, offset + ENTRY_SIZE * k, entries[k])
  {
    DictionaryAt(entries, k);
    PlacedEntryDecoded(header, entries, Dictionary(entries, |entries|).value, image, offset, k);
  }

  /** Entry `k`, written at `16 k` of the dictionary `d` behind the header
      and the contents, names lump `k` and points at its bytes. */
  lemma {:induction false} PlacedEntryDecoded(header: seq<byte>, entries: seq<Entry>, d: seq<byte>, image: seq<byte>, offset: nat, k: nat)
    requires |header| == HEADER_SIZE && k < |entries| && image == header + Contents(entries) + d
    requires EntryBytes(Position(entries, k), entries[k]).Bytes?
    requires ENTRY_SIZE * k + ENTRY_SIZE <= |d|
    requires d[ENTRY_SIZE * k..ENTRY_SIZE * k + ENTRY_SIZE] == EntryBytes(Position(entries, k), entries[k]).value
    requires offset == HEADER_SIZE + TotalLength(entries) && |entries[k].name| == NAME_SIZE
    ensures EntryAt(image, offset + ENTRY_SIZE * k, entries[k])
  {
    ContentAt(entries, k);
    PlacedInParts(header, Contents(entries), d, image,
      offset + ENTRY_SIZE * k, ENTRY_SIZE * k, TotalLength(entries[..k]), Position(entries, k), entries[k]);
  }

  /** An entry written at `i` of the dictionary `d` for a lump whose bytes
      sit at `before` in the contents `c` reads back from the file. */
  lemma {:induction false} PlacedInParts(header: seq<byte>, c: seq<byte>, d: seq<byte>, image: seq<byte>, at: nat, i: nat, before: nat, position: nat, e: Entry)
    requires image == header + c + d
    requires |header| == HEADER_SIZE && at == HEADER_SIZE + |c| + i && position == HEADER_SIZE + before
    requires EntryBytes(position, e).Bytes? && |e.name| == NAME_SIZE
    requires i + ENTRY_SIZE <= |d| && d[i..i + ENTRY_SIZE] == EntryBytes(position, e).value
    requires before + |e.content| <= |c| && c[before..before + |e.content|] == e.content
    ensures EntryAt(image, at, e)
  {
    SliceOfThird(header, c, d, i, ENTRY_SIZE);
    SliceOfSecond(header, c, d, before, |e.content|);
    PlacedEntryAt(image, at, position, e);
  }

  /** The dictionary loop reads entry after entry: when the entry at each
      `offset + 16 i` makes lump `i`, the loop from entry `k` ends with all
      of them, in order. */
  lemma {:induction false} LumpsReadBack(entry: nat -> Read<LumpValue>, offset: nat, lumps: seq<LumpValue>, k: nat)
    requires k <= |lumps|
    requires forall i :: 0 <= i < |lumps| ==> entry(offset + ENTRY_SIZE * i) == Got(lumps[i])
    ensures ReadLumps(entry, offset + ENTRY_SIZE * k, |lumps| - k, lumps[..k]) == Got(lumps)
    decreases |lumps| - k
  {
    if k == |lumps| {
      assert lumps[..k] == lumps;
    } else {
      var at := offset + ENTRY_SIZE * k;
      assert entry(at) == Got(lumps[k]);
      assert lumps[..k] + [lumps[k]] == lumps[..k + 1];
      assert at + ENTRY_SIZE == offset + ENTRY_SIZE * (k + 1);
      LumpsReadBack(entry, offset, lumps, k + 1);
    }
  }

  /** A file whose header gives its type, `|entries|` lumps and a dictionary
      at `offset`, and whose dictionary names every lump and points at its
      bytes, loads as those lumps, in order. */
  lemma {:induction false} LoadDecoded(input: seq<byte>, t: WadType, offset: nat, entries: seq<Entry>, registry: map<string, LumpKind>, lex: seq<byte> -> seq<Token>)
    requires |input| >= HEADER_SIZE && HeaderType(input) == Got(t) && offset < |input|
    requires Int32At(input, 4) == |entries| && Int32At(input, 8) == offset
    requires forall i :: 0 <= i < |entries| ==> EntryAt(input, offset + ENTRY_SIZE * i, entries[i])
    requires AllStored(entries) && AllPlain(registry, entries)
    ensures ReadWad(input, registry, lex) == Loaded(Some(t), Some(Reloaded(entries)), None)
  {
    var lumps := Reloaded(entries);
    var entry := EntryLumps(input, registry, lex);
    forall i | 0 <= i < |lumps| ensures entry(offset + ENTRY_SIZE * i) == Got(lumps[i]) {
      EntryReadBack(input, offset + ENTRY_SIZE * i, entries[i], registry, lex);
    }
    assert lumps[..0] == [];
    LumpsReadBack(entry, offset, lumps, 0);
  }

  /** The header of a saved file reads back as its type, lump count and
      dictionary offset. */
  lemma {:induction false} SavedHeader(t: WadType, entries: seq<Entry>)
    requires Image(t, entries).Bytes?
    ensures var image := Image(t, entries).value;
      |image| >= HEADER_SIZE && HeaderType(image) == Got(t)
      && Int32At(image, 4) == |entries| && Int32At(image, 8) == HEADER_SIZE + TotalLength(entries)
  {
    var image := Image(t, entries).value;
    var offset := HEADER_SIZE + TotalLength(entries);
    var d := Dictionary(entries, |entries|).value;
    assert image == HeaderBytes(t, |entries|, offset) + (Contents(entries) + d);
    HeaderReadBack(t, |entries|, offset, Contents(entries) + d);
  }

  /** `load(save(w))` gives back the type and every lump's name and bytes,
      in order, when there is at least one lump and no lump is of a
      registered class. */
  lemma {:induction false} LoadSaved(t: WadType, entries: seq<Entry>, registry: map<string, LumpKind>, lex: seq<byte> -> seq<Token>)
    requires |entries| >= 1
    requires |entries| <= INT32_MAX && HEADER_SIZE + TotalLength(entries) <= INT32_MAX
    requires AllStored(entries) && AllPlain(registry, entries)
    ensures Image(t, entries).Bytes?
    ensures ReadWad(Image(t, entries).value, registry, lex) == Loaded(Some(t), Some(Reloaded(entries)), None)
  {
    SavableImage(t, entries);
    SavedLoads(t, entries, registry, lex);
  }

  lemma {:induction false} SavedLoads(t: WadType, entries: seq<Entry>, registry: map<string, LumpKind>, lex: seq<byte> -> seq<Token>)
    requires |entries| >= 1 && Image(t, entries).Bytes?
    requires AllStored(entries) && AllPlain(registry, entries)
    ensures ReadWad(Image(t, entries).value, registry, lex) == Loaded(Some(t), Some(Reloaded(entries)), None)
  {
    var image := Image(t, entries).value;
    var offset := HEADER_SIZE + TotalLength(entries);
    assert |image| == HEADER_SIZE + ENTRY_SIZE * |entries| + TotalLength(entries);
    SavedHeader(t, entries);
    StoredNamesFit(entries);
    DictionaryDecoded(t, entries, image, offset);
    LoadDecoded(image, t, offset, entries, registry, lex);
  }

  /** A saved WAD without lumps does not load: its dictionary offset is the
      file's length, where no seek may go. */
  lemma {:induction false} EmptySaveDoesNotLoad(t: WadType, registry: map<string, LumpKind>, lex: seq<byte> -> seq<Token>)
    ensures Image(t, []).Bytes? && |Image(t, []).value| == HEADER_SIZE
    ensures ReadWad(Image(t, []).value, registry, lex) == Loaded(Some(t), None, Some(ParseError(EOF_MESSAGE)))
  {
    var image := Image(t, []).value;
    assert image == HeaderBytes(t, 0, HEADER_SIZE) + [];
    HeaderReadBack(t, 0, HEADER_SIZE, []);
  }
}
