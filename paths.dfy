/** POSIX paths as Node's `path` module treats them, modelled as a list of
    segments with an absolute flag. */
module Paths {
  import opened Text

  datatype Path = Path(absolute: bool, segments: seq<string>)

  /** `path.isAbsolute`. */
  predicate IsAbsolute(s: string) {
    s != [] && s[0] == '/'
  }

  /** A segment as `path.normalize` leaves it: non-empty, without '/', not '.' or '..'. */
  predicate PlainSegment(s: string) {
    s != [] && s != "." && s != ".." && forall i :: 0 <= i < |s| ==> s[i] != '/'
  }

  predicate PlainSegments(segs: seq<string>) {
    forall i :: 0 <= i < |segs| ==> PlainSegment(segs[i])
  }

  /** The length of the leading run of characters other than '/'. */
  function SegmentLength(s: string): (n: nat)
    ensures n <= |s| && forall j :: 0 <= j < n ==> s[j] != '/'
    ensures n < |s| ==> s[n] == '/'
  {
    if s == [] || s[0] == '/' then 0 else 1 + SegmentLength(s[1..])
  }

  /** The non-empty pieces of `s` between '/' separators. */
  function Components(s: string): (r: seq<string>)
    ensures forall i :: 0 <= i < |r| ==> r[i] != [] && '/' !in r[i]
    decreases |s|
  {
    if s == [] then []
    else if s[0] == '/' then Components(s[1..])
    else
      var n := SegmentLength(s);
      assert '/' !in s[..n] by {
        forall j | 0 <= j < n ensures s[..n][j] != '/' { }
      }
      [s[..n]] + Components(s[n..])
  }

  /** The segments joined by single '/' separators. */
  function JoinWith(segs: seq<string>): string {
    if segs == [] then ""
    else if |segs| == 1 then segs[0]
    else segs[0] + "/" + JoinWith(segs[1..])
  }

  /** `path.normalize` on the segments: drops '' and '.', resolves '..'. */
  function NormalizeFrom(absolute: bool, stack: seq<string>, segs: seq<string>): seq<string>
    decreases |segs|
  {
    if segs == [] then stack
    else
      var s := segs[0];
      if s == "" || s == "." then NormalizeFrom(absolute, stack, segs[1..])
      else if s == ".." then
        if stack != [] && stack[|stack| - 1] != ".." then NormalizeFrom(absolute, stack[..|stack| - 1], segs[1..])
        else if absolute then NormalizeFrom(absolute, stack, segs[1..])
        else NormalizeFrom(absolute, stack + [".."], segs[1..])
      else NormalizeFrom(absolute, stack + [s], segs[1..])
  }

  function Parse(s: string): Path {
    Path(IsAbsolute(s), NormalizeFrom(IsAbsolute(s), [], Components(s)))
  }

  /** The string form of a normalised path. Node's `path.join` and
      `path.normalize` keep a trailing separator; this form always drops it. */
  function Render(p: Path): string {
    if p.absolute then "/" + JoinWith(p.segments)
    else if p.segments == [] then "."
    else JoinWith(p.segments)
  }

  /** `path.join(a, b)` for two path strings. */
  function Join(a: string, b: string): string {
    var absolute := IsAbsolute(if a == [] then b else a);
    Render(Path(absolute, NormalizeFrom(absolute, [], Components(a) + Components(b))))
  }

  /** `path.basename`: the last component, or '' for '/' and ''. */
  function Basename(s: string): string {
    var c := Components(s);
    if c == [] then "" else c[|c| - 1]
  }

  function CommonPrefixLength(a: seq<string>, b: seq<string>): (k: nat)
    ensures k <= |a| && k <= |b| && a[..k] == b[..k]
    ensures k < |a| && k < |b| ==> a[k] != b[k]
  {
    if a == [] || b == [] || a[0] != b[0] then 0
    else
      var k := CommonPrefixLength(a[1..], b[1..]);
      assert a[..k + 1] == [a[0]] + a[1..][..k];
      assert b[..k + 1] == [b[0]] + b[1..][..k];
      k + 1
  }

  function Ups(n: nat): (r: seq<string>)
    ensures |r| == n && forall i :: 0 <= i < n ==> r[i] == ".."
  {
    if n == 0 then [] else [".."] + Ups(n - 1)
  }

  /** `path.relative(from, to)` between two paths of the same kind. A relative
      `from` with an absolute `to` (or the reverse) is resolved by Node against
      the working directory; the model then returns `to` unchanged. */
  function Relative(from: string, to: string): string {
    var f := Parse(from);
    var t := Parse(to);
    if f.absolute != t.absolute then to
    else
      var k := CommonPrefixLength(f.segments, t.segments);
      JoinWith(Ups(|f.segments| - k) + t.segments[k..])
  }

  // ---- lemmas ------------------------------------------------------------

  lemma {:induction false} NormalizePlain(absolute: bool, stack: seq<string>, segs: seq<string>)
    requires PlainSegments(segs)
    ensures NormalizeFrom(absolute, stack, segs) == stack + segs
    decreases |segs|
  {
    if segs != [] {
      NormalizePlain(absolute, stack + [segs[0]], segs[1..]);
      assert stack + [segs[0]] + segs[1..] == stack + segs;
    }
  }

  lemma {:induction false} SegmentThenSlash(x: string, y: string)
    requires x != [] && '/' !in x
    ensures Components(x + "/" + y) == [x] + Components(y)
  {
    var s := x + "/" + y;
    var n := SegmentLength(s);
    assert s[|x|] == '/';
    assert n == |x|;
    assert s[..n] == x;
    assert s[n..] == "/" + y;
    assert ("/" + y)[1..] == y;
  }

  /** Splitting a joined list of plain segments gives the segments back. */
  lemma {:induction false} ComponentsOfJoin(segs: seq<string>)
    requires forall i :: 0 <= i < |segs| ==> segs[i] != [] && '/' !in segs[i]
    ensures Components(JoinWith(segs)) == segs
  {
    if segs == [] {
    } else if |segs| == 1 {
      var x := segs[0];
      assert SegmentLength(x) == |x|;
      assert x[..|x|] == x && x[|x|..] == [];
    } else {
      SegmentThenSlash(segs[0], JoinWith(segs[1..]));
      ComponentsOfJoin(segs[1..]);
    }
  }

  lemma {:induction false} ComponentsOfRooted(segs: seq<string>)
    requires forall i :: 0 <= i < |segs| ==> segs[i] != [] && '/' !in segs[i]
    ensures Components("/" + JoinWith(segs)) == segs
  {
    var s := "/" + JoinWith(segs);
    assert s[1..] == JoinWith(segs);
    ComponentsOfJoin(segs);
  }

  lemma {:induction false} ParseRooted(segs: seq<string>)
    requires PlainSegments(segs)
    ensures Parse("/" + JoinWith(segs)) == Path(true, segs)
  {
    ComponentsOfRooted(segs);
    NormalizePlain(true, [], segs);
  }

  /** A path under an absolute root, made relative to the root, is the rest of
      its segments (`path.relative`). */
  lemma {:induction false} RelativeUnderRoot(root: seq<string>, rest: seq<string>)
    requires PlainSegments(root) && PlainSegments(rest)
    ensures Relative("/" + JoinWith(root), "/" + JoinWith(root + rest)) == JoinWith(rest)
  {
    assert PlainSegments(root + rest);
    ParseRooted(root);
    ParseRooted(root + rest);
    var k := CommonPrefixLength(root, root + rest);
    assert (root + rest)[..|root|] == root;
    assert k == |root|;
    assert (root + rest)[k..] == rest;
    assert Ups(0) + rest == rest;
  }

  /** Joining the relative rest back onto the root gives the full path (`path.join`). */
  lemma {:induction false} JoinUnderRoot(root: seq<string>, rest: seq<string>)
    requires PlainSegments(root) && PlainSegments(rest)
    ensures Join("/" + JoinWith(root), JoinWith(rest)) == "/" + JoinWith(root + rest)
  {
    var a := "/" + JoinWith(root);
    var b := JoinWith(rest);
    var all := root + rest;
    assert PlainSegments(all);
    assert a != [] && IsAbsolute(a);
    ComponentsOfRooted(root);
    ComponentsOfJoin(rest);
    assert Components(a) + Components(b) == all;
    NormalizePlain(true, [], all);
    assert [] + all == all;
    calc {
      Join(a, b);
      Render(Path(true, NormalizeFrom(true, [], Components(a) + Components(b))));
      Render(Path(true, all));
    }
  }
}
