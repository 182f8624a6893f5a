/** Constants and path predicates about the game: its default debug port, the
    archive extensions it loads, and the archives that ship with it. */
module Game {
  import opened Text

  /** The port GZDoom's debug server listens on unless told otherwise. */
  const DEFAULT_PORT: int := 19021

  const WAD_EXTENSIONS: seq<string> := ["wad", "zip", "pk3", "pk7", "deh", "bex", "iwad", "pwad", "ipk3", "ipk7"]

  const BUILTIN_PK3_FILES: seq<string> :=
    ["gzdoom.pk3", "brightmaps.pk3", "lights.pk3", "game_support.pk3", "game_widescreen_gfx.pk3"]

  /** A project of a debug configuration: a bare path string, or a source
      path with the archive the game loads it from. An archive that is absent
      is the empty string; the source treats both alike. */
  datatype ProjectEntry = PathString(s: string) | ProjectItem(path: string, archive: string)

  /** `Array.prototype.some(x => s.endsWith(x))`. */
  function SomeEndsWith(s: string, suffixes: seq<string>): (r: bool)
    ensures r <==> exists i :: 0 <= i < |suffixes| && EndsWith(s, suffixes[i])
  {
    if suffixes == [] then false
    else
      var rest := SomeEndsWith(s, suffixes[1..]);
      assert forall i :: 1 <= i < |suffixes| ==> suffixes[i] == suffixes[1..][i - 1];
      EndsWith(s, suffixes[0]) || rest
  }

  /** `isBuiltinPK3File`: the lower-cased, trimmed path ends with the
      lower-cased name of a shipped archive. */
  predicate IsBuiltinPK3File(path: string) {
    SomeEndsWith(Trim(Lower(path)), BuiltinNames())
  }

  /** The shipped archives' names, lower-cased. */
  function BuiltinNames(): (names: seq<string>)
    ensures |names| == |BUILTIN_PK3_FILES|
    ensures forall i :: 0 <= i < |names| ==> names[i] == Lower(BUILTIN_PK3_FILES[i])
  {
    seq(|BUILTIN_PK3_FILES|, i requires 0 <= i < |BUILTIN_PK3_FILES| => Lower(BUILTIN_PK3_FILES[i]))
  }

  /** `isWad`: the path ends with one of the extensions, case-sensitively and
      without a dot. */
  predicate IsWad(path: string) {
    SomeEndsWith(path, WAD_EXTENSIONS)
  }

  lemma {:induction false} EndsWithExtended(x: string, s: string, suffix: string)
    requires EndsWith(s, suffix)
    ensures EndsWith(x + s, suffix)
  {
    assert (x + s)[|x + s| - |suffix|..] == s[|s| - |suffix|..];
  }

  /** Whatever precedes a WAD path, the result is a WAD path. */
  lemma {:induction false} WadSuffixClosed(x: string, s: string)
    requires IsWad(s)
    ensures IsWad(x + s)
  {
    var i :| 0 <= i < |WAD_EXTENSIONS| && EndsWith(s, WAD_EXTENSIONS[i]);
    EndsWithExtended(x, s, WAD_EXTENSIONS[i]);
  }

  /** Whatever precedes the path of a shipped archive, the result still
      names a shipped archive. */
  lemma {:induction false} BuiltinSuffixClosed(x: string, s: string)
    requires IsBuiltinPK3File(s)
    ensures IsBuiltinPK3File(x + s)
  {
    var names := BuiltinNames();
    var t := Trim(Lower(s));
    var i :| 0 <= i < |names| && EndsWith(t, names[i]);
    BuiltinNamesNonEmpty(i);
    LowerAppend(x, s);
    TrimExtended(Lower(x), Lower(s));
    EndsWithTransitive(Trim(Lower(x + s)), t, names[i]);
  }

  lemma {:induction false} BuiltinNamesNonEmpty(i: nat)
    requires i < |BUILTIN_PK3_FILES|
    ensures BuiltinNames()[i] != []
  {
    var name := BUILTIN_PK3_FILES[i];
    assert name in {"gzdoom.pk3", "brightmaps.pk3", "lights.pk3", "game_support.pk3", "game_widescreen_gfx.pk3"};
    assert |Lower(name)| == |name| > 0;
  }

  /** The shipped-archive test ignores ASCII letter case. */
  lemma {:induction false} BuiltinIgnoresCase(path: string)
    ensures IsBuiltinPK3File(Upper(path)) == IsBuiltinPK3File(path)
  {
    LowerUpper(path);
  }

  lemma {:induction false} LowerUpper(s: string)
    ensures Lower(Upper(s)) == Lower(s)
  {
    assert forall i :: 0 <= i < |s| ==> Lower(Upper(s))[i] == Lower(s)[i];
  }
}
