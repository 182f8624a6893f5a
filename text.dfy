/** String and byte helpers with the meaning JavaScript gives them.

    Strings are sequences of Unicode scalar values; case mapping is ASCII-only. */
module Text {

  type byte = x: int | 0 <= x < 256

  /** White space as `String.prototype.trim` and the regular-expression class `\s` see it. */
  predicate IsJsSpace(c: char) {
    ('\t' <= c <= '\r') || c == ' ' || c == '\U{00A0}' || c == '\U{1680}'
    || ('\U{2000}' <= c <= '\U{200A}') || c == '\U{2028}' || c == '\U{2029}'
    || c == '\U{202F}' || c == '\U{205F}' || c == '\U{3000}' || c == '\U{FEFF}'
  }

  function TrimStart(s: string): (r: string)
    ensures |r| <= |s| && r == s[|s| - |r|..]
    ensures r != [] ==> !IsJsSpace(r[0])
    ensures forall i :: 0 <= i < |s| - |r| ==> IsJsSpace(s[i])
  {
    if s != [] && IsJsSpace(s[0]) then TrimStart(s[1..]) else s
  }

  function TrimEnd(s: string): (r: string)
    ensures |r| <= |s| && r == s[..|r|]
    ensures r != [] ==> !IsJsSpace(r[|r| - 1])
    ensures forall i :: |r| <= i < |s| ==> IsJsSpace(s[i])
  {
    if s != [] && IsJsSpace(s[|s| - 1]) then TrimEnd(s[..|s| - 1]) else s
  }

  /** `String.prototype.trim`. */
  function Trim(s: string): string {
    TrimEnd(TrimStart(s))
  }

  function LowerChar(c: char): char {
    if 'A' <= c <= 'Z' then (c as int + 32) as char else c
  }

  function UpperChar(c: char): char {
    if 'a' <= c <= 'z' then (c as int - 32) as char else c
  }

  /** `toLowerCase`, restricted to ASCII letters. */
  function Lower(s: string): (r: string)
    ensures |r| == |s|
    ensures forall i :: 0 <= i < |s| ==> r[i] == LowerChar(s[i])
  {
    if s == [] then [] else [LowerChar(s[0])] + Lower(s[1..])
  }

  /** `toUpperCase`, restricted to ASCII letters. */
  function Upper(s: string): (r: string)
    ensures |r| == |s|
    ensures forall i :: 0 <= i < |s| ==> r[i] == UpperChar(s[i])
  {
    if s == [] then [] else [UpperChar(s[0])] + Upper(s[1..])
  }

  predicate StartsWith<T(==)>(s: seq<T>, prefix: seq<T>) {
    |prefix| <= |s| && s[..|prefix|] == prefix
  }

  predicate EndsWith<T(==)>(s: seq<T>, suffix: seq<T>) {
    |suffix| <= |s| && s[|s| - |suffix|..] == suffix
  }

  predicate OccursAt<T(==)>(s: seq<T>, pat: seq<T>, i: int) {
    0 <= i && i + |pat| <= |s| && s[i..i + |pat|] == pat
  }

  /** `indexOf`: the first position of `pat` in `s`, or -1. */
  function IndexOf<T(==)>(s: seq<T>, pat: seq<T>): (r: int)
    ensures -1 <= r <= |s|
    ensures r >= 0 ==> OccursAt(s, pat, r)
    ensures forall j :: 0 <= j && (r < 0 || j < r) ==> !OccursAt(s, pat, j)
  {
    IndexFrom(s, pat, 0)
  }

  function IndexFrom<T(==)>(s: seq<T>, pat: seq<T>, from: nat): (r: int)
    ensures -1 <= r <= |s|
    ensures r >= 0 ==> from <= r && OccursAt(s, pat, r)
    ensures forall j :: from <= j && (r < 0 || j < r) ==> !OccursAt(s, pat, j)
    decreases |s| + 1 - from
  {
    if from + |pat| > |s| then -1
    else if s[from..from + |pat|] == pat then from
    else IndexFrom(s, pat, from + 1)
  }

  /** `lastIndexOf`: the last position of `pat` in `s`, or -1. */
  function LastIndexOf<T(==)>(s: seq<T>, pat: seq<T>): (r: int)
    ensures -1 <= r <= |s|
    ensures r >= 0 ==> OccursAt(s, pat, r)
    ensures forall j :: r < j ==> !OccursAt(s, pat, j)
  {
    LastIndexBelow(s, pat, |s| + 1)
  }

  function LastIndexBelow<T(==)>(s: seq<T>, pat: seq<T>, bound: nat): (r: int)
    ensures -1 <= r < bound
    ensures r >= 0 ==> OccursAt(s, pat, r)
    ensures forall j :: r < j < bound ==> !OccursAt(s, pat, j)
  {
    if bound == 0 then -1
    else if OccursAt(s, pat, bound - 1) then bound - 1
    else LastIndexBelow(s, pat, bound - 1)
  }

  /** For a one-character pattern, `indexOf` is the first position holding that character. */
  lemma {:induction false} IndexOfChar(s: string, c: char)
    ensures IndexOf(s, [c]) < 0 <==> c !in s
    ensures IndexOf(s, [c]) >= 0 ==> IndexOf(s, [c]) < |s| && s[IndexOf(s, [c])] == c
    ensures forall j :: 0 <= j < |s| && (IndexOf(s, [c]) < 0 || j < IndexOf(s, [c])) ==> s[j] != c
  {
    forall j | 0 <= j < |s|
      ensures OccursAt(s, [c], j) <==> s[j] == c
    {
      assert s[j..j + 1] == [s[j]];
    }
  }

  /** A pattern found in a prefix is found at the same first position in any extension. */
  lemma {:induction false} IndexOfExtended<T>(a: seq<T>, b: seq<T>, pat: seq<T>)
    requires IndexOf(a, pat) >= 0
    ensures IndexOf(a + b, pat) == IndexOf(a, pat)
  {
    var r := IndexOf(a, pat);
    assert (a + b)[r..r + |pat|] == a[r..r + |pat|];
    assert OccursAt(a + b, pat, r);
    var r' := IndexOf(a + b, pat);
    assert 0 <= r' <= r;
    assert (a + b)[r'..r' + |pat|] == a[r'..r' + |pat|];
    assert OccursAt(a, pat, r');
  }

  // ---- trimming ---------------------------------------------------------

  lemma {:induction false} LowerAppend(x: string, s: string)
    ensures Lower(x + s) == Lower(x) + Lower(s)
  {
    var l, lx, ls := Lower(x + s), Lower(x), Lower(s);
    assert |l| == |lx + ls|;
    forall i | 0 <= i < |l|
      ensures l[i] == (lx + ls)[i]
    {
      if i < |x| {
        assert (x + s)[i] == x[i];
        assert (lx + ls)[i] == lx[i];
      } else {
        assert (x + s)[i] == s[i - |x|];
        assert (lx + ls)[i] == ls[i - |x|];
      }
    }
  }

  lemma {:induction false} EndsWithTransitive(a: string, b: string, c: string)
    requires EndsWith(a, b) && EndsWith(b, c)
    ensures EndsWith(a, c)
  {
    assert a[|a| - |c|..] == b[|b| - |c|..];
  }

  /** Trimming a string that ends with `v` keeps all of `v` trimmed, as
      long as `v` holds something other than white space. */
  lemma {:induction false} TrimExtended(u: string, v: string)
    requires Trim(v) != []
    ensures EndsWith(Trim(u + v), Trim(v))
  {
    var k, e := TrimBounds(v);
    var k' := TrimOfAppend(u, v, k, e);
    SliceOfSuffix(u, v, k, e, k', Trim(v), Trim(u + v));
  }

  /** Where `Trim(u + v)` starts and ends, given where `Trim(v)` does. */
  lemma {:induction false} TrimOfAppend(u: string, v: string, k: nat, e: nat) returns (k': nat)
    requires k < e <= |v| && !IsJsSpace(v[k]) && !IsJsSpace(v[e - 1])
    requires forall j :: e <= j < |v| ==> IsJsSpace(v[j])
    ensures k' <= |u| + k && Trim(u + v) == (u + v)[k'..|u| + e]
  {
    k' := TrimOfJoined(u, v, u + v, k, e);
  }

  lemma {:induction false} TrimOfJoined(u: string, v: string, uv: string, k: nat, e: nat) returns (k': nat)
    requires uv == u + v
    requires k < e <= |v| && !IsJsSpace(v[k]) && !IsJsSpace(v[e - 1])
    requires forall j :: e <= j < |v| ==> IsJsSpace(v[j])
    ensures k' <= |u| + k && Trim(uv) == uv[k'..|u| + e]
  {
    assert uv[|u| + k] == v[k];
    assert uv[|u| + e - 1] == v[e - 1];
    forall j | |u| + e <= j < |uv|
      ensures IsJsSpace(uv[j])
    {
      assert uv[j] == v[j - |u|];
    }
    k' := TrimAround(uv, |u| + k, |u| + e);
  }

  /** Where `Trim(s)` starts and ends, given a character at `i` that is not
      white space and the end `e` of the last such character. */
  lemma {:induction false} TrimAround(s: string, i: nat, e: nat) returns (k': nat)
    requires i < e <= |s| && !IsJsSpace(s[i]) && !IsJsSpace(s[e - 1])
    requires forall j :: e <= j < |s| ==> IsJsSpace(s[j])
    ensures k' <= i && Trim(s) == s[k'..e]
  {
    NonSpaceKept(s, i);
    var e';
    k', e' := TrimBounds(s);
    SpaceRunBound(s, i, k');
    LastNonSpace(s, e, e');
  }

  lemma {:induction false} SliceOfSuffix(u: string, v: string, k: nat, e: nat, k': nat, t: string, t': string)
    requires k <= e <= |v| && k' <= |u| + k
    requires t == v[k..e] && t' == (u + v)[k'..|u| + e]
    ensures EndsWith(t', t)
  {
    var uv := u + v;
    SuffixOfSlice(uv, k', |u| + k, |u| + e);
    assert uv[|u| + k..|u| + e] == v[k..e];
  }

  /** A run of white space from the start stops before a character that
      is not white space. */
  lemma {:induction false} SpaceRunBound(s: string, i: nat, k: nat)
    requires i < |s| && k <= |s| && !IsJsSpace(s[i])
    requires forall j :: 0 <= j < k ==> IsJsSpace(s[j])
    ensures k <= i
  {
  }

  /** Two ends after which only white space follows, each after a
      character that is not white space, are the same. */
  lemma {:induction false} LastNonSpace(s: string, e: nat, e': nat)
    requires 0 < e <= |s| && 0 < e' <= |s|
    requires !IsJsSpace(s[e - 1]) && forall j :: e <= j < |s| ==> IsJsSpace(s[j])
    requires !IsJsSpace(s[e' - 1]) && forall j :: e' <= j < |s| ==> IsJsSpace(s[j])
    ensures e' == e
  {
  }

  /** A string with a character that is not white space does not trim to
      nothing. */
  lemma {:induction false} NonSpaceKept(s: string, i: nat)
    requires i < |s| && !IsJsSpace(s[i])
    ensures Trim(s) != []
  {
    var w := TrimStart(s);
    assert s[i] == w[i - (|s| - |w|)];
  }

  lemma {:induction false} SuffixOfSlice(s: string, a: nat, b: nat, c: nat)
    requires a <= b <= c <= |s|
    ensures s[a..c][(c - a) - (c - b)..] == s[b..c]
  {
  }

  /** `Trim(s)` is `s[k..e]`: it starts and ends with a character that is
      not white space, and only white space lies before `k` and after `e`. */
  lemma {:induction false} TrimBounds(s: string) returns (k: nat, e: nat)
    requires Trim(s) != []
    ensures k < e <= |s| && Trim(s) == s[k..e]
    ensures !IsJsSpace(s[k]) && !IsJsSpace(s[e - 1])
    ensures forall j :: 0 <= j < k ==> IsJsSpace(s[j])
    ensures forall j :: e <= j < |s| ==> IsJsSpace(s[j])
  {
    var w := TrimStart(s);
    var t := TrimEnd(w);
    k, e := InnerSlice(s, w, t);
    forall j | e <= j < |s|
      ensures IsJsSpace(s[j])
    {
      assert s[j] == w[j - k];
    }
  }

  /** A prefix `t` of a suffix `w` of `s` is the slice of `s` between them. */
  lemma {:induction false} InnerSlice(s: string, w: string, t: string) returns (k: nat, e: nat)
    requires |w| <= |s| && w == s[|s| - |w|..]
    requires |t| <= |w| && t == w[..|t|]
    ensures k == |s| - |w| && e == k + |t| <= |s| && s[k..e] == t
    ensures t != [] ==> s[k] == t[0] && s[e - 1] == t[|t| - 1]
    ensures forall j :: k <= j < |s| ==> s[j] == w[j - k]
  {
    k := |s| - |w|;
    e := k + |t|;
    assert s[k..e] == w[..|t|];
  }

  // ---- decimal numbers -------------------------------------------------

  predicate IsDigit(c: char) { '0' <= c <= '9' }

  predicate AllDigits(s: string) { forall i :: 0 <= i < |s| ==> IsDigit(s[i]) }

  function DigitChar(d: nat): char
    requires d < 10
  {
    ('0' as int + d) as char
  }

  /** `Number.prototype.toString()` for a non-negative integer. */
  function NatToString(n: nat): (r: string)
    ensures r != [] && AllDigits(r)
  {
    if n < 10 then [DigitChar(n)] else NatToString(n / 10) + [DigitChar(n % 10)]
  }

  /** `Number.prototype.toString()` for an integer. */
  function IntToString(i: int): string {
    if i < 0 then "-" + NatToString(-i) else NatToString(i)
  }

  /** The value of a string of decimal digits. */
  function DecimalValue(s: string): nat
    requires AllDigits(s)
  {
    if s == [] then 0 else 10 * DecimalValue(s[..|s| - 1]) + (s[|s| - 1] as int - '0' as int)
  }

  /** Printing and reading a decimal number give the number back. */
  lemma {:induction false} DecimalRoundTrip(n: nat)
    ensures DecimalValue(NatToString(n)) == n
  {
    if n >= 10 {
      DecimalRoundTrip(n / 10);
      var s := NatToString(n);
      assert s[..|s| - 1] == NatToString(n / 10);
    }
  }

  // ---- UTF-8 -------------------------------------------------------------

  /** The UTF-8 encoding of one scalar value (`TextEncoder`, `Buffer.from`). */
  function Utf8Char(c: char): (r: seq<byte>)
    ensures 1 <= |r| <= 4
    ensures (|r| == 1) <==> (c as int < 0x80)
    ensures |r| == 1 ==> r[0] == c as int
  {
    var v := c as int;
    if v < 0x80 then [v]
    else if v < 0x800 then [0xC0 + v / 0x40, 0x80 + v % 0x40]
    else if v < 0x10000 then [0xE0 + v / 0x1000, 0x80 + (v / 0x40) % 0x40, 0x80 + v % 0x40]
    else [0xF0 + v / 0x40000, 0x80 + (v / 0x1000) % 0x40, 0x80 + (v / 0x40) % 0x40, 0x80 + v % 0x40]
  }

  function Utf8(s: string): (r: seq<byte>)
    ensures |r| >= |s|
  {
    if s == [] then [] else Utf8Char(s[0]) + Utf8(s[1..])
  }

  /** A string of ASCII characters encodes to one byte per character. */
  predicate IsAscii(s: string) { forall i :: 0 <= i < |s| ==> s[i] as int < 0x80 }

  function AsciiBytes(s: string): (r: seq<byte>)
    requires IsAscii(s)
    ensures |r| == |s| && forall i :: 0 <= i < |s| ==> r[i] == s[i] as int
  {
    if s == [] then [] else [s[0] as int] + AsciiBytes(s[1..])
  }

  lemma {:induction false} Utf8OfAscii(s: string)
    requires IsAscii(s)
    ensures Utf8(s) == AsciiBytes(s)
  {
    if s != [] {
      Utf8OfAscii(s[1..]);
    }
  }

  lemma {:induction false} Utf8Append(a: string, b: string)
    ensures Utf8(a + b) == Utf8(a) + Utf8(b)
  {
    if a == [] {
      assert a + b == b;
    } else {
      assert (a + b)[1..] == a[1..] + b;
      Utf8Append(a[1..], b);
    }
  }
}
