/** The `wad:` file system: a URI names a WAD file and a lump inside it. The
    provider loads each WAD once, keeps it, edits its lump list in place and
    hands back the bytes to write over the file. */
module WadFileSystem {
  import opened Wrappers
  import opened Text
  import opened Textmaps
  import opened Lumps
  import opened Wads
  import opened WadArchive

  /** The extensions that end the WAD part of a URI path, in the order they
      are tried. */
  const EXTENSIONS: seq<string> := [".wad", ".iwad"]

  const INVALID_URI := "Invalid WAD URI format"
  const NOT_FOUND := "Entry not found: "
  const ALREADY_EXISTS := "Entry already exists: "
  const NO_DIRECTORIES := "Creating directories in WAD files is not supported"
  /** What assigning a property of `undefined` throws. */
  const NO_TARGET := "Cannot set properties of undefined (setting 'name')"

  datatype Uri = Uri(scheme: string, path: string)

  datatype WadUri = WadUri(wadPath: string, entryPath: string)

  datatype FileType = File | Directory

  datatype FileStat = FileStat(fileType: FileType, ctime: int, mtime: int, size: nat)

  // ---- URIs ----------------------------------------------------------------

  /** `ext` occurs at `i` in the path, in any ASCII letter case. */
  predicate ExtensionAt(path: string, ext: string, i: int) {
    OccursAt(Lower(path), ext, i)
  }

  /** Where the WAD part of a path ends: after the last `.wad`, or when there
      is none after the last `.iwad`; -1 when neither occurs. */
  function WadPathEnd(path: string): int {
    var w := LastIndexOf(Lower(path), ".wad");
    if w >= 0 then w + |".wad"|
    else
      var iw := LastIndexOf(Lower(path), ".iwad");
      if iw >= 0 then iw + |".iwad"| else -1
  }

  /** `parseWadUri`: the scheme must start with `wad`; the path splits after
      its WAD part, skipping the one character that follows. */
  function ParseWadUri(uri: Uri): (r: Result<WadUri>)
    ensures r.Err? ==> r.error == INVALID_URI
    ensures r.Ok? ==>
      var w := r.value.wadPath;
      0 < |w| <= |uri.path| && w == uri.path[..|w|]
      && r.value.entryPath == (if |w| < |uri.path| then uri.path[|w| + 1..] else "")
  {
    if !StartsWith(uri.scheme, "wad") then Err(INVALID_URI)
    else
      var end := WadPathEnd(uri.path);
      if end < 0 then Err(INVALID_URI)
      else Ok(WadUri(uri.path[..end], if end < |uri.path| then uri.path[end + 1..] else ""))
  }

  /** A URI is refused exactly when its scheme does not start with `wad` or
      its path holds neither extension. */
  lemma ParseWadUriAccepts(uri: Uri)
    ensures ParseWadUri(uri).Ok? <==> (StartsWith(uri.scheme, "wad")
      && ((exists i :: ExtensionAt(uri.path, ".wad", i)) || (exists i :: ExtensionAt(uri.path, ".iwad", i))))
  {
    var lower := Lower(uri.path);
    var w, iw := LastIndexOf(lower, ".wad"), LastIndexOf(lower, ".iwad");
    assert w >= 0 ==> ExtensionAt(uri.path, ".wad", w);
    assert iw >= 0 ==> ExtensionAt(uri.path, ".iwad", iw);
  }

  /** The lower-cased prefix is the prefix of the lower-cased text. */
  lemma LowerPrefix(s: string, n: nat)
    requires n <= |s|
    ensures Lower(s[..n]) == Lower(s)[..n]
  {
  }

  /** A `.wad` anywhere in the path wins, even when an `.iwad` comes later:
      the WAD path ends with the last `.wad`. */
  lemma {:induction false} WadExtensionWins(uri: Uri, i: int)
    requires StartsWith(uri.scheme, "wad") && ExtensionAt(uri.path, ".wad", i)
    ensures var r := ParseWadUri(uri);
      r.Ok? && EndsWith(Lower(r.value.wadPath), ".wad")
      && forall j :: ExtensionAt(uri.path, ".wad", j) ==> j + |".wad"| <= |r.value.wadPath|
  {
    var lower := Lower(uri.path);
    var w := LastIndexOf(lower, ".wad");
    assert w >= i;
    var end := w + 4;
    LowerPrefix(uri.path, end);
    assert Lower(uri.path[..end])[end - 4..] == lower[w..w + 4];
  }

  /** Without any `.wad`, the WAD path ends with the last `.iwad`. */
  lemma {:induction false} IwadExtensionFallback(uri: Uri, i: int)
    requires StartsWith(uri.scheme, "wad") && ExtensionAt(uri.path, ".iwad", i)
    requires forall j :: !ExtensionAt(uri.path, ".wad", j)
    ensures var r := ParseWadUri(uri);
      r.Ok? && EndsWith(Lower(r.value.wadPath), ".iwad")
      && forall j :: ExtensionAt(uri.path, ".iwad", j) ==> j + |".iwad"| <= |r.value.wadPath|
  {
    var lower := Lower(uri.path);
    assert LastIndexOf(lower, ".wad") < 0 by {
      var w := LastIndexOf(lower, ".wad");
      assert !ExtensionAt(uri.path, ".wad", w);
    }
    var iw := LastIndexOf(lower, ".iwad");
    assert iw >= i;
    var end := iw + 5;
    LowerPrefix(uri.path, end);
    assert Lower(uri.path[..end])[end - 5..] == lower[iw..iw + 5];
  }

  /** `parseWadUri` as written: the extensions are tried in order and the
      first one found stops the search. */
  method ParseUri(uri: Uri) returns (r: Result<WadUri>)
    ensures r == ParseWadUri(uri)
  {
    if !StartsWith(uri.scheme, "wad") {
      return Err(INVALID_URI);
    }
    var path := uri.path;
    var lower := Lower(path);
    var wadpos := -1;
    var ext := "";
    var k := 0;
    while k < |EXTENSIONS| && wadpos == -1
      invariant 0 <= k <= |EXTENSIONS|
      invariant k == 0 ==> wadpos == -1
      invariant k > 0 ==> ext == EXTENSIONS[k - 1] && wadpos == LastIndexOf(lower, ext)
      invariant k == 2 ==> LastIndexOf(lower, EXTENSIONS[0]) == -1
    {
      ext := EXTENSIONS[k];
      wadpos := LastIndexOf(lower, ext);
      k := k + 1;
    }
    if wadpos == -1 {
      return Err(INVALID_URI);
    }
    assert wadpos + |ext| == WadPathEnd(path);
    var end := wadpos + |ext|;
    var wadPath := path[..end];
    var entryPath := if end + 1 <= |path| then path[end + 1..] else "";
    return Ok(WadUri(wadPath, entryPath));
  }

  // ---- lump lists ------------------------------------------------------------

  /** `lumps.find(lump => lump.name === p)`, as an index: the first lump
      named `p`, or -1. */
  function Find(ls: seq<Lump>, p: string): (i: int)
    reads set l | l in ls
    ensures -1 <= i < |ls|
    ensures i >= 0 ==> ls[i].name == p
    ensures forall j :: 0 <= j < |ls| && (i < 0 || j < i) ==> ls[j].name != p
    decreases |ls|
  {
    if ls == [] then -1
    else if ls[0].name == p then 0
    else
      var j := Find(ls[1..], p);
      if j < 0 then -1 else j + 1
  }

  /** `lumps.filter(lump => lump.name !== p)`. */
  function Without(ls: seq<Lump>, p: string): (r: seq<Lump>)
    reads set l | l in ls
    ensures |r| <= |ls|
    ensures forall k :: 0 <= k < |r| ==> r[k] in ls && r[k].name != p
    ensures forall k :: 0 <= k < |ls| && ls[k].name != p ==> ls[k] in r
    decreases |ls|
  {
    if ls == [] then []
    else (if ls[0].name == p then [] else [ls[0]]) + Without(ls[1..], p)
  }

  /** Filtering keeps the order: it filters each part of a list in turn. */
  lemma {:induction false} WithoutAppend(a: seq<Lump>, b: seq<Lump>, p: string)
    ensures Without(a + b, p) == Without(a, p) + Without(b, p)
    decreases |a|
  {
    if a == [] {
      assert a + b == b;
    } else {
      var head := if a[0].name == p then [] else [a[0]];
      assert (a + b)[1..] == a[1..] + b;
      WithoutAppend(a[1..], b, p);
      calc {
        Without(a + b, p);
        head + Without(a[1..] + b, p);
        head + (Without(a[1..], p) + Without(b, p));
        (head + Without(a[1..], p)) + Without(b, p);
        Without(a, p) + Without(b, p);
      }
    }
  }

  /** A list with no lump named `p` is kept whole. */
  lemma {:induction false} WithoutNothing(ls: seq<Lump>, p: string)
    requires forall k :: 0 <= k < |ls| ==> ls[k].name != p
    ensures Without(ls, p) == ls
    decreases |ls|
  {
    if ls != [] {
      WithoutNothing(ls[1..], p);
    }
  }

  /** Deleting twice deletes no more. */
  lemma WithoutIdempotent(ls: seq<Lump>, p: string)
    ensures Without(Without(ls, p), p) == Without(ls, p)
  {
    WithoutNothing(Without(ls, p), p);
  }

  /** `getEntry`'s lookup: the first lump named `p`. */
  function EntryNamed(ls: seq<Lump>, p: string): (r: Result<Lump>)
    reads set l | l in ls
    ensures r.Err? <==> forall k :: 0 <= k < |ls| ==> ls[k].name != p
    ensures r.Err? ==> r.error == NOT_FOUND + p
    ensures r.Ok? ==> r.value == ls[Find(ls, p)] && r.value.name == p
  {
    var i := Find(ls, p);
    if i < 0 then Err(NOT_FOUND + p) else Ok(ls[i])
  }

  /** A file's `stat`: the entry's byte length. */
  function StatOf(ls: seq<Lump>, p: string): (r: Result<FileStat>)
    reads set l | l in ls
    ensures r.Err? <==> forall k :: 0 <= k < |ls| ==> ls[k].name != p
    ensures r.Err? ==> r.error == NOT_FOUND + p
    ensures r.Ok? ==> r.value == FileStat(File, 0, 0, EntryNamed(ls, p).value.Length())
  {
    var e := EntryNamed(ls, p);
    if e.Err? then Err(e.error) else Ok(FileStat(File, 0, 0, e.value.Length()))
  }

  /** `readDirectory`'s listing: every lump's stored name, as a file. */
  function Listing(ls: seq<Lump>): (r: seq<(string, FileType)>)
    reads set l | l in ls
    ensures |r| == |ls|
    ensures forall i :: 0 <= i < |ls| ==> r[i] == (ls[i].name, File)
    decreases |ls|
  {
    if ls == [] then [] else [(ls[0].name, File)] + Listing(ls[1..])
  }

  /** What setting a lump's content throws: a `TEXTMAP` lump reports its
      parse error. */
  function ContentError(kind: LumpKind, content: seq<byte>, lex: seq<byte> -> seq<Token>): Option<string> {
    if kind == PlainLump then None
    else
      var q := Parse(lex(content));
      if q.error.Some? then Some(Message(q.error.value)) else None
  }

  /** The lumps of the WADs `ws`. */
  function LumpsOf(ws: set<Wad>): set<Lump>
    reads ws
  {
    set w, l | w in ws && l in w.lumps :: l
  }

  /** The bytes `save` produces, or what it throws. */
  function SavedImage(wad: Wad): Result<seq<byte>>
    reads wad, set l | l in wad.lumps
  {
    var image := Image(wad.wadType, EntriesOf(wad.lumps));
    if image.Refused? then Err(WriteMessage(image.error)) else Ok(image.value)
  }

  /** `Buffer.from(wad.save())`. */
  method Persist(wad: Wad) returns (r: Result<seq<byte>>)
    ensures r == SavedImage(wad)
  {
    var saved := wad.Save();
    if saved.Failed? {
      return Err(saved.error.message);
    }
    return Ok(saved.value[..]);
  }

  // ---- editing a WAD in place ------------------------------------------------

  /** The lumps' values, one per lump: a snapshot of the list. */
  function Snapshot(ls: seq<Lump>): (vs: seq<LumpValue>)
    reads set l | l in ls
    ensures |vs| == |ls| && forall k :: 0 <= k < |ls| ==> vs[k] == ls[k].Value()
    decreases |ls|
  {
    if ls == [] then [] else [ls[0].Value()] + Snapshot(ls[1..])
  }

  /** The first value named `p`, or -1: `Find` over a snapshot. `Find` reads
      the lump objects of the current heap, for the methods; this one works on
      values, so the heap-free specifications (`Written`, `Renamed`) can look
      names up. `FindSnapshot` shows the two agree. */
  function FindValue(vs: seq<LumpValue>, p: string): (i: int)
    ensures -1 <= i < |vs|
    ensures i >= 0 ==> vs[i].name == p
    ensures forall j :: 0 <= j < |vs| && (i < 0 || j < i) ==> vs[j].name != p
    decreases |vs|
  {
    if vs == [] then -1
    else if vs[0].name == p then 0
    else
      var j := FindValue(vs[1..], p);
      if j < 0 then -1 else j + 1
  }

  /** Looking the lumps up finds what looking their snapshot up finds. */
  lemma FindSnapshot(ls: seq<Lump>, p: string)
    ensures Find(ls, p) == FindValue(Snapshot(ls), p)
  {
    var i, vs := Find(ls, p), Snapshot(ls);
    var v := FindValue(vs, p);
    assert i >= 0 ==> vs[i].name == p;
    assert v >= 0 ==> ls[v].name == p;
  }

  /** Why `writeFile` stops before assigning the content, given the lumps'
      values: a missing entry without `create`, an existing one without
      `overwrite`, or a new name the `name` setter refuses. */
  function WriteRefusal(before: seq<LumpValue>, p: string, create: bool, overwrite: bool): Option<string> {
    var i := FindValue(before, p);
    if i < 0 && !create then Some(NOT_FOUND + p)
    else if i >= 0 && !overwrite then Some(ALREADY_EXISTS + p)
    else if i < 0 && NormalizeName(p).Err? then Some(INVALID_NAME)
    else None
  }

  /** What `writeFile` does to a lump list `ls` whose values were `before`,
      leaving `lumps`: when refused nothing changes; otherwise the first
      lump named `p` gets the new content (a `TEXTMAP` lump reparses it)
      and no other lump changes, or when there is none a new plain lump of
      that name holding `content` is appended. */
  predicate Written(ls: seq<Lump>, before: seq<LumpValue>, lumps: seq<Lump>, p: string, content: seq<byte>,
                    create: bool, overwrite: bool, lex: seq<byte> -> seq<Token>, err: Option<string>)
    requires |before| == |ls|
    reads set l | l in ls, set l | l in lumps
  {
    var i := FindValue(before, p);
    var refused := WriteRefusal(before, p, create, overwrite);
    (refused.Some? ==>
       err == refused && lumps == ls
       && forall k :: 0 <= k < |ls| ==> ls[k].Value() == before[k])
    && (refused.None? && i >= 0 ==>
          var target := ls[i];
          lumps == ls
          && target.Value() == before[i].(data := content, namespace := target.namespace, blocks := target.blocks)
          && err == ContentError(target.kind, content, lex)
          && (target.kind == TextmapLump ==>
                target.namespace == Parse(lex(content)).namespace && target.blocks == Parse(lex(content)).blocks)
          && forall k :: 0 <= k < |ls| && ls[k] != target ==> ls[k].Value() == before[k])
    && (refused.None? && i < 0 ==>
          |lumps| == |ls| + 1 && lumps[..|ls|] == ls && lumps[|ls|] !in ls && err == None
          && lumps[|ls|].Value() == LumpValue(PlainLump, NormalizeName(p).value, content, None, [])
          && forall k :: 0 <= k < |ls| ==> ls[k].Value() == before[k])
  }

  /** `writeFile`'s new entry: an empty plain lump named `p`, appended to
      the WAD; a name the setter refuses appends nothing. */
  method AppendEntry(wad: Wad, p: string) returns (entry: Lump, err: Option<string>)
    modifies wad
    ensures wad.wadType == old(wad.wadType) && fresh(entry)
    ensures NormalizeName(p).Err? ==> err == Some(INVALID_NAME) && wad.lumps == old(wad.lumps)
    ensures NormalizeName(p).Ok? ==>
      err == None && wad.lumps == old(wad.lumps) + [entry]
      && entry.Value() == LumpValue(PlainLump, NormalizeName(p).value, [], None, [])
  {
    entry := new Lump(PlainLump);
    err := entry.SetName(p);
    if err.Some? {
      return;
    }
    wad.lumps := wad.lumps + [entry];
  }

  /** `writeFile` from the lookup to the content assignment. */
  method WriteEntry(wad: Wad, p: string, content: seq<byte>, create: bool, overwrite: bool,
                    lex: seq<byte> -> seq<Token>) returns (err: Option<string>)
    modifies wad, set l | l in wad.lumps
    ensures Written(old(wad.lumps), old(Snapshot(wad.lumps)), wad.lumps, p, content, create, overwrite, lex, err)
    ensures wad.wadType == old(wad.wadType)
    ensures |wad.lumps| == |old(wad.lumps)| + 1 ==> fresh(wad.lumps[|old(wad.lumps)|])
  {
    ghost var before := Snapshot(wad.lumps);
    FindSnapshot(wad.lumps, p);
    var i := Find(wad.lumps, p);
    if i < 0 && !create {
      return Some(NOT_FOUND + p);
    } else if i >= 0 && !overwrite {
      return Some(ALREADY_EXISTS + p);
    }
    var entry: Lump;
    if i < 0 {
      var e;
      entry, e := AppendEntry(wad, p);
      if e.Some? {
        return e;
      }
    } else {
      entry := wad.lumps[i];
    }
    err := entry.SetContent(content, lex);
  }

  /** What `rename` does to a lump list whose values were `before`: the
      first lump named `p` takes the new name and no other lump changes.
      Without such a lump the source assigns to `undefined` and throws. */
  predicate Renamed(ls: seq<Lump>, before: seq<LumpValue>, p: string, newName: string, err: Option<string>)
    requires |before| == |ls|
    reads set l | l in ls
  {
    var i := FindValue(before, p);
    (i < 0 ==> err == Some(NO_TARGET))
    && (i >= 0 && NormalizeName(newName).Err? ==> err == Some(INVALID_NAME))
    && (i >= 0 && NormalizeName(newName).Ok? ==>
          err == None && ls[i].Value() == before[i].(name := NormalizeName(newName).value))
    && forall k :: 0 <= k < |ls| && (i < 0 || err.Some? || ls[k] != ls[i]) ==> ls[k].Value() == before[k]
  }

  /** `rename` from the lookup to the name assignment. */
  method RenameEntry(wad: Wad, p: string, newName: string) returns (err: Option<string>)
    modifies set l | l in wad.lumps
    ensures Renamed(wad.lumps, old(Snapshot(wad.lumps)), p, newName, err)
  {
    FindSnapshot(wad.lumps, p);
    var i := Find(wad.lumps, p);
    if i < 0 {
      return Some(NO_TARGET);
    }
    err := wad.lumps[i].SetName(newName);
  }

  /** `writeFile` once the WAD is open: the entry is written, then the
      WAD is saved unless the write was refused. */
  method WriteAndSave(wad: Wad, p: string, content: seq<byte>, create: bool, overwrite: bool,
                      lex: seq<byte> -> seq<Token>) returns (r: Result<seq<byte>>, ghost refused: Option<string>)
    modifies wad, set l | l in wad.lumps
    ensures Written(old(wad.lumps), old(Snapshot(wad.lumps)), wad.lumps, p, content, create, overwrite, lex, refused)
    ensures wad.wadType == old(wad.wadType)
    ensures |wad.lumps| == |old(wad.lumps)| + 1 ==> fresh(wad.lumps[|old(wad.lumps)|])
    ensures refused.Some? ==> r == Err(refused.value)
    ensures refused.None? ==> r == SavedImage(wad)
  {
    var err := WriteEntry(wad, p, content, create, overwrite, lex);
    refused := err;
    if err.Some? {
      return Err(err.value), refused;
    }
    r := Persist(wad);
  }

  /** `delete` once the WAD is open: every lump named `p` goes, the rest
      keep their order, and the WAD is saved. */
  method DeleteAndSave(wad: Wad, p: string) returns (r: Result<seq<byte>>)
    modifies wad
    ensures wad.lumps == Without(old(wad.lumps), p) && wad.wadType == old(wad.wadType)
    ensures r == SavedImage(wad)
  {
    wad.lumps := Without(wad.lumps, p);
    r := Persist(wad);
  }

  /** `rename` once the WAD is open and the new URI parsed: the entry is
      renamed, then the WAD is saved unless the rename failed. */
  method RenameAndSave(wad: Wad, p: string, newName: string) returns (r: Result<seq<byte>>, ghost refused: Option<string>)
    modifies set l | l in wad.lumps
    ensures wad.lumps == old(wad.lumps)
    ensures Renamed(wad.lumps, old(Snapshot(wad.lumps)), p, newName, refused)
    ensures refused.Some? ==> r == Err(refused.value)
    ensures refused.None? ==> r == SavedImage(wad)
  {
    var err := RenameEntry(wad, p, newName);
    refused := err;
    if err.Some? {
      return Err(err.value), refused;
    }
    r := Persist(wad);
  }

  /** `rename` once the WAD is open: a new URI that does not parse changes
      nothing; otherwise its entry part is the new name. */
  method RenameTo(wad: Wad, p: string, newUri: Uri) returns (r: Result<seq<byte>>, ghost refused: Option<string>)
    modifies set l | l in wad.lumps
    ensures wad.lumps == old(wad.lumps)
    ensures ParseWadUri(newUri).Err? ==> r == Err(INVALID_URI) && unchanged(set l | l in wad.lumps)
    ensures ParseWadUri(newUri).Ok? ==>
      (Renamed(wad.lumps, old(Snapshot(wad.lumps)), p, ParseWadUri(newUri).value.entryPath, refused)
       && (refused.Some? ==> r == Err(refused.value))
       && (refused.None? ==> r == SavedImage(wad)))
  {
    refused := None;
    var next := ParseUri(newUri);
    if next.Err? {
      return Err(next.error), refused;
    }
    r, refused := RenameAndSave(wad, p, next.value.entryPath);
  }

  // ---- the provider ------------------------------------------------------------

  /** The cache after `getWadFile(wadPath)`: as it was when the path was
      already there or the load failed, else with one WAD added under the
      path. */
  predicate Opened(before: map<string, Wad>, after: map<string, Wad>, wadPath: string, loaded: Loaded) {
    if wadPath in before || loaded.error.Some? then after == before
    else wadPath in after && after == before[wadPath := after[wadPath]]
  }

  /** The message of what loading threw. */
  function LoadFailure(loaded: Loaded): string {
    if loaded.error.Some? then loaded.error.value.message else ""
  }

  /** `WadFileSystemProvider`: one instance serves every `wad:` URI, so it
      keeps each WAD it has loaded. `readFile(p)` stands for the whole
      `ArrayBuffer` handed to `load` (the `.buffer` of what `readFileSync`
      returns); for a file under 4 KiB Node hands back its shared allocation
      pool, with the file at a non-zero offset, and what a load of that reads
      is not captured here. The lump classes and the textmap lexer are those
      of the WAD model. */
  class WadFileSystemProvider {
    var wads: map<string, Wad>

    constructor()
      ensures wads == map[]
    {
      wads := map[];
    }

    /** `getWadFile`: a path is read and loaded only when it is not cached;
        a WAD that fails to load is not cached. The bytes loaded are
        `readFile(wadPath)`, the buffer `load` receives, not necessarily the
        file alone. */
    method GetWadFile(wadPath: string, readFile: string -> seq<byte>, factory: LumpFactory,
                      lex: seq<byte> -> seq<Token>) returns (r: Result<Wad>)
      modifies this
      ensures var loaded := ReadWad(readFile(wadPath), factory.classesByName, lex);
        Opened(old(wads), wads, wadPath, loaded)
        && (r.Ok? <==> wadPath in wads)
        && (r.Ok? ==> r.value == wads[wadPath])
        && (r.Err? ==> r.error == LoadFailure(loaded))
        && (wadPath !in old(wads) && r.Ok? ==>
              fresh(r.value) && (forall l :: l in r.value.lumps ==> fresh(l))
              && r.value.wadType == loaded.wadType.value && ValuesOf(r.value.lumps) == loaded.lumps.value)
    {
      if wadPath !in wads {
        var wad := new Wad();
        var err := wad.Load(readFile(wadPath), factory, lex);
        if err.Some? {
          return Err(err.value.message);
        }
        wads := wads[wadPath := wad];
      }
      return Ok(wads[wadPath]);
    }

    /** The start every entry operation shares: the URI is parsed, then the
        WAD is opened. A cached WAD comes back untouched. */
    method Open(uri: Uri, readFile: string -> seq<byte>, factory: LumpFactory,
                lex: seq<byte> -> seq<Token>) returns (pr: Result<WadUri>, got: Result<Wad>)
      modifies this
      ensures pr == ParseWadUri(uri)
      ensures pr.Err? ==> wads == old(wads)
      ensures pr.Ok? ==>
        var loaded := ReadWad(readFile(pr.value.wadPath), factory.classesByName, lex);
        var path := pr.value.wadPath;
        Opened(old(wads), wads, path, loaded)
        && (got.Ok? <==> path in wads)
        && (got.Ok? ==> got.value == wads[path])
        && (got.Err? ==> got.error == LoadFailure(loaded))
        && (path in old(wads) ==> got.Ok? && Snapshot(got.value.lumps) == old(Snapshot(got.value.lumps)))
        && (path !in old(wads) && got.Ok? ==> fresh(got.value) && forall l :: l in got.value.lumps ==> fresh(l))
    {
      pr := ParseUri(uri);
      if pr.Err? {
        return pr, Err(pr.error);
      }
      got := GetWadFile(pr.value.wadPath, readFile, factory, lex);
    }

    /** `stat`: a URI without an entry is the WAD's directory, found without
        loading; an entry is a file of its content's length. */
    method Stat(uri: Uri, readFile: string -> seq<byte>, factory: LumpFactory,
                lex: seq<byte> -> seq<Token>) returns (r: Result<FileStat>)
      modifies this
      ensures var pr := ParseWadUri(uri);
        && (pr.Err? ==> r == Err(INVALID_URI) && wads == old(wads))
        && (pr.Ok? && pr.value.entryPath == "" ==> r == Ok(FileStat(Directory, 0, 0, 0)) && wads == old(wads))
        && (pr.Ok? && pr.value.entryPath != "" ==>
              var loaded := ReadWad(readFile(pr.value.wadPath), factory.classesByName, lex);
              Opened(old(wads), wads, pr.value.wadPath, loaded)
              && r == if pr.value.wadPath in wads then StatOf(wads[pr.value.wadPath].lumps, pr.value.entryPath)
                      else Err(LoadFailure(loaded)))
    {
      var pr := ParseUri(uri);
      if pr.Err? {
        return Err(pr.error);
      }
      if pr.value.entryPath == "" {
        return Ok(FileStat(Directory, 0, 0, 0));
      }
      var got := GetWadFile(pr.value.wadPath, readFile, factory, lex);
      if got.Err? {
        return Err(got.error);
      }
      var entry := EntryNamed(got.value.lumps, pr.value.entryPath);
      if entry.Err? {
        return Err(entry.error);
      }
      return Ok(FileStat(File, 0, 0, entry.value.Length()));
    }

    /** `readDirectory`: every lump of the WAD, whatever the entry part. */
    method ReadDirectory(uri: Uri, readFile: string -> seq<byte>, factory: LumpFactory,
                         lex: seq<byte> -> seq<Token>) returns (r: Result<seq<(string, FileType)>>)
      modifies this
      ensures var pr := ParseWadUri(uri);
        && (pr.Err? ==> r == Err(INVALID_URI) && wads == old(wads))
        && (pr.Ok? ==>
              var loaded := ReadWad(readFile(pr.value.wadPath), factory.classesByName, lex);
              Opened(old(wads), wads, pr.value.wadPath, loaded)
              && r == if pr.value.wadPath in wads then Ok(Listing(wads[pr.value.wadPath].lumps))
                      else Err(LoadFailure(loaded)))
    {
      var pr := ParseUri(uri);
      if pr.Err? {
        return Err(pr.error);
      }
      var got := GetWadFile(pr.value.wadPath, readFile, factory, lex);
      if got.Err? {
        return Err(got.error);
      }
      return Ok(Listing(got.value.lumps));
    }

    /** `getEntry`: the first lump whose stored name is the entry path. */
    method GetEntry(uri: Uri, readFile: string -> seq<byte>, factory: LumpFactory,
                    lex: seq<byte> -> seq<Token>) returns (r: Result<Lump>)
      modifies this
      ensures var pr := ParseWadUri(uri);
        && (pr.Err? ==> r == Err(INVALID_URI) && wads == old(wads))
        && (pr.Ok? ==>
              var loaded := ReadWad(readFile(pr.value.wadPath), factory.classesByName, lex);
              Opened(old(wads), wads, pr.value.wadPath, loaded)
              && r == if pr.value.wadPath in wads then EntryNamed(wads[pr.value.wadPath].lumps, pr.value.entryPath)
                      else Err(LoadFailure(loaded)))
    {
      var pr := ParseUri(uri);
      if pr.Err? {
        return Err(pr.error);
      }
      var got := GetWadFile(pr.value.wadPath, readFile, factory, lex);
      if got.Err? {
        return Err(got.error);
      }
      return EntryNamed(got.value.lumps, pr.value.entryPath);
    }

    /** `readFile`: the content of the entry `getEntry` finds. */
    method ReadFile(uri: Uri, readFile: string -> seq<byte>, factory: LumpFactory,
                    lex: seq<byte> -> seq<Token>) returns (r: Result<seq<byte>>)
      modifies this
      ensures var pr := ParseWadUri(uri);
        && (pr.Err? ==> r == Err(INVALID_URI) && wads == old(wads))
        && (pr.Ok? ==>
              var loaded := ReadWad(readFile(pr.value.wadPath), factory.classesByName, lex);
              Opened(old(wads), wads, pr.value.wadPath, loaded)
              && r == if pr.value.wadPath !in wads then Err(LoadFailure(loaded))
                      else
                        var e := EntryNamed(wads[pr.value.wadPath].lumps, pr.value.entryPath);
                        if e.Err? then Err(e.error) else Ok(e.value.Content()))
    {
      var entry := GetEntry(uri, readFile, factory, lex);
      if entry.Err? {
        return Err(entry.error);
      }
      return Ok(entry.value.Content());
    }

    /** `writeFile`: the entry is written as `Written` says, then the whole
        WAD is saved; the result is the bytes to write over the WAD file. */
    method WriteFile(uri: Uri, content: seq<byte>, create: bool, overwrite: bool,
                     readFile: string -> seq<byte>, factory: LumpFactory, lex: seq<byte> -> seq<Token>)
      returns (r: Result<seq<byte>>, ghost refused: Option<string>)
      modifies this, wads.Values, LumpsOf(wads.Values)
      ensures var pr := ParseWadUri(uri);
        && (pr.Err? ==> r == Err(INVALID_URI) && wads == old(wads))
        && (pr.Ok? ==>
              var loaded := ReadWad(readFile(pr.value.wadPath), factory.classesByName, lex);
              var path := pr.value.wadPath;
              Opened(old(wads), wads, path, loaded)
              && (path !in wads ==> r == Err(LoadFailure(loaded)))
              && (path in wads ==>
                    (refused.Some? ==> r == Err(refused.value))
                    && (refused.None? ==> r == SavedImage(wads[path])))
              && (path in old(wads) ==>
                    var wad := old(wads)[path];
                    Written(old(wad.lumps), old(Snapshot(wad.lumps)), wad.lumps,
                            pr.value.entryPath, content, create, overwrite, lex, refused)))
    {
      refused := None;
      var pr, got := Open(uri, readFile, factory, lex);
      if pr.Err? {
        return Err(pr.error), refused;
      }
      if got.Err? {
        return Err(got.error), refused;
      }
      r, refused := WriteAndSave(got.value, pr.value.entryPath, content, create, overwrite, lex);
    }

    /** `delete`: every lump named by the entry path goes, the rest keep
        their order; then the WAD is saved. */
    method Delete(uri: Uri, readFile: string -> seq<byte>, factory: LumpFactory,
                  lex: seq<byte> -> seq<Token>) returns (r: Result<seq<byte>>)
      modifies this, wads.Values
      ensures var pr := ParseWadUri(uri);
        && (pr.Err? ==> r == Err(INVALID_URI) && wads == old(wads))
        && (pr.Ok? ==>
              var loaded := ReadWad(readFile(pr.value.wadPath), factory.classesByName, lex);
              var path := pr.value.wadPath;
              Opened(old(wads), wads, path, loaded)
              && r == (if path in wads then SavedImage(wads[path]) else Err(LoadFailure(loaded)))
              && (path in old(wads) ==>
                    var wad := old(wads)[path];
                    wad.lumps == Without(old(wad.lumps), pr.value.entryPath) && wad.wadType == old(wad.wadType)))
    {
      var pr := ParseUri(uri);
      if pr.Err? {
        return Err(pr.error);
      }
      var got := GetWadFile(pr.value.wadPath, readFile, factory, lex);
      if got.Err? {
        return Err(got.error);
      }
      r := DeleteAndSave(got.value, pr.value.entryPath);
    }

    /** `rename`: the WAD is opened before the new URI is parsed, so a bad
        new URI still leaves the WAD cached; the first matching lump is
        renamed as `Renamed` says, then the WAD is saved. */
    method Rename(oldUri: Uri, newUri: Uri, readFile: string -> seq<byte>, factory: LumpFactory,
                  lex: seq<byte> -> seq<Token>) returns (r: Result<seq<byte>>, ghost refused: Option<string>)
      modifies this, LumpsOf(wads.Values)
      ensures var pr := ParseWadUri(oldUri);
        && (pr.Err? ==> r == Err(INVALID_URI) && wads == old(wads))
        && (pr.Ok? ==>
              var loaded := ReadWad(readFile(pr.value.wadPath), factory.classesByName, lex);
              var path := pr.value.wadPath;
              var next := ParseWadUri(newUri);
              Opened(old(wads), wads, path, loaded)
              && (path !in wads ==> r == Err(LoadFailure(loaded)))
              && (path in wads && next.Err? ==> r == Err(INVALID_URI))
              && (path in wads && next.Ok? ==>
                    (refused.Some? ==> r == Err(refused.value))
                    && (refused.None? ==> r == SavedImage(wads[path])))
              && (path in old(wads) && next.Ok? ==>
                    var wad := old(wads)[path];
                    wad.lumps == old(wad.lumps)
                    && Renamed(wad.lumps, old(Snapshot(wad.lumps)), pr.value.entryPath, next.value.entryPath, refused)))
    {
      refused := None;
      var pr, got := Open(oldUri, readFile, factory, lex);
      if pr.Err? {
        return Err(pr.error), refused;
      }
      if got.Err? {
        return Err(got.error), refused;
      }
      r, refused := RenameTo(got.value, pr.value.entryPath, newUri);
    }

    /** `createDirectory`: WADs hold no directories. */
    method CreateDirectory(uri: Uri) returns (r: Result<()>)
      ensures r == Err(NO_DIRECTORIES)
    {
      return Err(NO_DIRECTORIES);
    }
  }

  /** Loading happens at most once per path: a second `getWadFile` of the
      same path returns the very WAD the first one returned and reads
      nothing. */
  method LoadedOnce(provider: WadFileSystemProvider, wadPath: string, readFile: string -> seq<byte>,
                    factory: LumpFactory, lex: seq<byte> -> seq<Token>) returns (first: Result<Wad>, second: Result<Wad>)
    modifies provider
    ensures first.Ok? ==> second == first && provider.wads == old(provider.wads)[wadPath := first.value]
  {
    first := provider.GetWadFile(wadPath, readFile, factory, lex);
    second := provider.GetWadFile(wadPath, readFile, factory, lex);
  }
}
