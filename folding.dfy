/** Folding ranges of a DeHackEd patch: each section header opens a region
    that runs to just before the next header, or to the last line. */
module Folding {
  import opened Text

  // ---- the section-header pattern ---------------------------------------

  /** The bracketed section names, as the case-insensitive pattern spells
      them in lower case. */
  const SECTION_NAMES: seq<string> := ["codeptr", "pars", "strings", "sprites", "sounds", "music", "helper"]

  /** The block names followed by a number. */
  const BLOCK_NAMES: seq<string> := ["pointer", "thing", "frame", "sprite", "sound", "ammo", "weapon", "cheat", "misc", "text"]

  /** The characters the pattern's `.` does not match. */
  predicate IsLineTerminator(c: char) {
    c == '\n' || c == '\r' || c == '\U{2028}' || c == '\U{2029}'
  }

  /** `\s*` */
  predicate AllSpace(s: string) {
    forall i :: 0 <= i < |s| ==> IsJsSpace(s[i])
  }

  /** `.*` */
  predicate AnyText(s: string) {
    forall i :: 0 <= i < |s| ==> !IsLineTerminator(s[i])
  }

  /** `\d+` */
  predicate Number(s: string) {
    s != [] && AllDigits(s)
  }

  /** `[NAME]` for a section name, in any ASCII letter case (a non-Unicode
      case-insensitive pattern folds ASCII letters only). */
  predicate Bracketed(c: string) {
    2 <= |c| && c[0] == '[' && c[|c| - 1] == ']' && Lower(c[1..|c| - 1]) in SECTION_NAMES
  }

  /** `Text \d+ \d+`, with single spaces. */
  predicate TextHeader(c: string) {
    5 <= |c| && Lower(c[..5]) == "text "
    && exists k :: 5 <= k < |c| && c[k] == ' ' && Number(c[5..k]) && Number(c[k + 1..])
  }

  /** `(\s*\((.+)\))?` */
  predicate Parenthesised(c: string) {
    c == []
    || exists k :: 0 <= k && k + 2 < |c| && AllSpace(c[..k]) && c[k] == '(' && c[|c| - 1] == ')' && AnyText(c[k + 1..|c| - 1])
  }

  /** `\s+(\d+)(\s*\((.+)\))?` */
  predicate Numbered(c: string) {
    exists a, b :: 0 < a < b <= |c| && AllSpace(c[..a]) && Number(c[a..b]) && Parenthesised(c[b..])
  }

  /** A block name followed by a number and an optional parenthesised
      description. */
  predicate BlockHeader(c: string) {
    exists i :: 0 <= i < |BLOCK_NAMES| && |BLOCK_NAMES[i]| <= |c|
      && Lower(c[..|BLOCK_NAMES[i]|]) == BLOCK_NAMES[i] && Numbered(c[|BLOCK_NAMES[i]|..])
  }

  /** `(\s*(?:#|\/\/).*)?\s*$`: white space, or a `#` or `//` comment
      followed by white space. */
  predicate Trailer(t: string) {
    || AllSpace(t)
    || (exists a, b :: 0 <= a <= b <= |t| && AllSpace(t[..a])
          && (StartsWith(t[a..b], "#") || StartsWith(t[a..b], "//")) && AnyText(t[a..b]) && AllSpace(t[b..]))
  }

  /** `foldingRegionStart.test(line)`: leading white space, one of the three
      header forms, and a trailer. */
  predicate IsHeader(line: string) {
    exists a, b :: 0 <= a <= b <= |line| && AllSpace(line[..a])
      && (Bracketed(line[a..b]) || TextHeader(line[a..b]) || BlockHeader(line[a..b])) && Trailer(line[b..])
  }

  /** Every header form starts with a character that is not white space. */
  lemma {:induction false} HeaderStartsSolid(c: string)
    requires Bracketed(c) || TextHeader(c) || BlockHeader(c)
    ensures c != [] && !IsJsSpace(c[0])
  {
    if BlockHeader(c) && !Bracketed(c) && !TextHeader(c) {
      var i :| 0 <= i < |BLOCK_NAMES| && |BLOCK_NAMES[i]| <= |c|
        && Lower(c[..|BLOCK_NAMES[i]|]) == BLOCK_NAMES[i] && Numbered(c[|BLOCK_NAMES[i]|..]);
      var name := BLOCK_NAMES[i];
      assert name in {"pointer", "thing", "frame", "sprite", "sound", "ammo", "weapon", "cheat", "misc", "text"};
      assert 'a' <= name[0] <= 'z';
      assert LowerChar(c[0]) == name[0];
    } else if TextHeader(c) {
      assert LowerChar(c[0]) == 't';
    }
  }

  /** A header line never trims to the empty string: the pattern requires a
      keyword or a bracket. */
  lemma {:induction false} HeaderNotBlank(line: string)
    requires IsHeader(line)
    ensures Trim(line) != ""
  {
    var a, b :| 0 <= a <= b <= |line| && AllSpace(line[..a])
      && (Bracketed(line[a..b]) || TextHeader(line[a..b]) || BlockHeader(line[a..b])) && Trailer(line[b..]);
    HeaderStartsSolid(line[a..b]);
    assert line[a] == line[a..b][0];
    NonSpaceKept(line, a);
  }

  /** A comment from `a` to the end of `t`, after white space, is a trailer. */
  lemma TrailerOf(t: string, a: nat)
    requires a <= |t| && AllSpace(t[..a]) && AnyText(t[a..])
    requires StartsWith(t[a..], "#") || StartsWith(t[a..], "//")
    ensures Trailer(t)
  {
    assert t[a..|t|] == t[a..];
    assert t[|t|..] == [];
  }

  /** A comment marker followed by text starts with that marker and holds no
      line terminator. */
  lemma CommentText(marker: string, comment: string)
    requires marker == "#" || marker == "//"
    requires AnyText(comment)
    ensures StartsWith(marker + comment, marker) && AnyText(marker + comment)
  {
    assert (marker + comment)[..|marker|] == marker;
    forall i | 0 <= i < |marker + comment|
      ensures !IsLineTerminator((marker + comment)[i])
    {
      if i >= |marker| {
        assert (marker + comment)[i] == comment[i - |marker|];
      }
    }
  }

  /** Text without line terminators stays so when more such text follows. */
  lemma AnyTextAppend(u: string, v: string)
    requires AnyText(u) && AnyText(v)
    ensures AnyText(u + v)
  {
    forall i | 0 <= i < |u + v|
      ensures !IsLineTerminator((u + v)[i])
    {
      if i >= |u| {
        assert (u + v)[i] == v[i - |u|];
      }
    }
  }

  /** A trailer without line terminators stays a trailer when a comment is
      appended: after white space the comment starts, and after a comment
      anything on the line is part of it. */
  lemma {:induction false} TrailerExtended(t: string, marker: string, comment: string)
    requires Trailer(t) && AnyText(t) && AnyText(comment)
    requires marker == "#" || marker == "//"
    ensures Trailer(t + (marker + comment))
  {
    var mc := marker + comment;
    var t' := t + mc;
    CommentText(marker, comment);
    if AllSpace(t) {
      assert t'[..|t|] == t;
      assert t'[|t|..] == mc;
      TrailerOf(t', |t|);
    } else {
      var a, e :| 0 <= a <= e <= |t| && AllSpace(t[..a])
        && (StartsWith(t[a..e], "#") || StartsWith(t[a..e], "//")) && AnyText(t[a..e]) && AllSpace(t[e..]);
      CommentTrailerExtended(t, a, e, mc);
    }
  }

  /** The comment case of `TrailerExtended`: the comment that starts at `a`
      runs on through the appended text. */
  lemma {:induction false} CommentTrailerExtended(t: string, a: nat, e: nat, mc: string)
    requires a <= e <= |t| && AllSpace(t[..a]) && AnyText(t) && AnyText(mc)
    requires StartsWith(t[a..e], "#") || StartsWith(t[a..e], "//")
    ensures Trailer(t + mc)
  {
    var t' := t + mc;
    assert t'[..a] == t[..a];
    assert t'[a..] == t[a..] + mc;
    var m := if StartsWith(t[a..e], "#") then "#" else "//";
    assert (t[a..] + mc)[..|m|] == t[a..e][..|m|];
    assert AnyText(t[a..]) by {
      forall i | 0 <= i < |t[a..]|
        ensures !IsLineTerminator(t[a..][i])
      {
        assert t[a..][i] == t[a + i];
      }
    }
    AnyTextAppend(t[a..], mc);
    TrailerOf(t', a);
  }

  /** A line split into white space, a header form and a trailer is a
      header. */
  lemma HeaderAt(line: string, a: nat, b: nat, c: string, t: string)
    requires a <= b <= |line| && AllSpace(line[..a]) && line[a..b] == c && line[b..] == t
    requires Bracketed(c) || TextHeader(c) || BlockHeader(c)
    requires Trailer(t)
    ensures IsHeader(line)
  {
  }

  /** Appending a comment to a header split at `a` and `b` keeps the split:
      only the trailer grows. */
  lemma HeaderCommented(line: string, a: nat, b: nat, marker: string, comment: string)
    requires a <= b <= |line| && AllSpace(line[..a]) && Trailer(line[b..])
    requires Bracketed(line[a..b]) || TextHeader(line[a..b]) || BlockHeader(line[a..b])
    requires AnyText(line) && AnyText(comment)
    requires marker == "#" || marker == "//"
    ensures IsHeader(line + marker + comment)
  {
    var full := line + marker + comment;
    var t := line[b..];
    assert full[..a] == line[..a] && full[a..b] == line[a..b];
    assert full[b..] == t + (marker + comment);
    assert AnyText(t) by {
      forall i | 0 <= i < |t|
        ensures !IsLineTerminator(t[i])
      {
        assert t[i] == line[b + i];
      }
    }
    TrailerExtended(t, marker, comment);
    HeaderAt(full, a, b, line[a..b], t + (marker + comment));
  }

  /** A `#` or `//` comment may follow a header: a header line without line
      terminators stays a header with a comment appended. */
  lemma {:induction false} CommentAllowed(line: string, marker: string, comment: string)
    requires IsHeader(line) && AnyText(line) && AnyText(comment)
    requires marker == "#" || marker == "//"
    ensures IsHeader(line + marker + comment)
  {
    var a, b :| 0 <= a <= b <= |line| && AllSpace(line[..a])
      && (Bracketed(line[a..b]) || TextHeader(line[a..b]) || BlockHeader(line[a..b])) && Trailer(line[b..]);
    HeaderCommented(line, a, b, marker, comment);
  }

  // ---- folding ranges ----------------------------------------------------

  datatype FoldingRangeKind = Comment | Imports | Region

  datatype FoldingRange = FoldingRange(start: int, end: int, kind: FoldingRangeKind)

  /** The lines `isHeader` accepts among the first `n`, leaving out line 0:
      a `sectionStart` of 0 means no section is open. The ranges below are
      stated for any header test; the document's is `IsHeader`. */
  function Headers(isHeader: string -> bool, lines: seq<string>, n: nat): (hs: seq<nat>)
    requires n <= |lines|
    ensures forall k :: 0 <= k < |hs| ==> 1 <= hs[k] < n && isHeader(lines[hs[k]])
    ensures forall j, k :: 0 <= j < k < |hs| ==> hs[j] < hs[k]
  {
    if n <= 1 then []
    else Headers(isHeader, lines, n - 1) + if isHeader(lines[n - 1]) then [n - 1] else []
  }

  /** One more line adds it to the headers when it is one. */
  lemma HeadersStep(isHeader: string -> bool, lines: seq<string>, i: nat)
    requires i < |lines|
    ensures Headers(isHeader, lines, i + 1) == Headers(isHeader, lines, i) + if 1 <= i && isHeader(lines[i]) then [i] else []
  {
  }

  /** Conversely, every header after line 0 is listed. */
  lemma {:induction false} HeadersComplete(isHeader: string -> bool, lines: seq<string>, n: nat, i: nat)
    requires n <= |lines| && 1 <= i < n && isHeader(lines[i])
    ensures i in Headers(isHeader, lines, n)
  {
    if i < n - 1 {
      HeadersComplete(isHeader, lines, n - 1, i);
    }
  }

  /** Where the region opened before the header at line `h` ends: the line
      before it, or the one before that when that line is blank. */
  function EndBefore(lines: seq<string>, h: nat): int
    requires 1 <= h <= |lines|
  {
    h - (1 + if AllSpace(lines[h - 1]) then 1 else 0)
  }

  /** A line trims to nothing exactly when it is all white space. */
  lemma BlankIsAllSpace(line: string)
    ensures Trim(line) == "" <==> AllSpace(line)
  {
  }

  /** `lines[i - 1].trim() === ''` */
  method IsBlankLine(line: string) returns (blank: bool)
    ensures blank <==> AllSpace(line)
  {
    blank := Trim(line) == "";
    BlankIsAllSpace(line);
  }

  /** The regions closed by the headers `hs`: each runs from one header to
      just before the next. */
  function Closed(lines: seq<string>, hs: seq<nat>): (rs: seq<FoldingRange>)
    requires forall k :: 0 <= k < |hs| ==> 1 <= hs[k] <= |lines|
    ensures |rs| == if hs == [] then 0 else |hs| - 1
  {
    if |hs| <= 1 then []
    else Closed(lines, hs[..|hs| - 1]) + [FoldingRange(hs[|hs| - 2], EndBefore(lines, hs[|hs| - 1]), Region)]
  }

  /** The folding ranges of a document: the regions the headers close, then
      the region of the last header, which runs to the last line. */
  function FoldingRanges(isHeader: string -> bool, lines: seq<string>): seq<FoldingRange> {
    var hs := Headers(isHeader, lines, |lines|);
    Closed(lines, hs) + if hs == [] then [] else [FoldingRange(hs[|hs| - 1], |lines| - 1, Region)]
  }

  /** The loop state after the first `i` lines: the open section starts at
      the last header seen (0 when none), and the ranges hold the regions
      the headers seen so far have closed. */
  predicate Scanned(isHeader: string -> bool, lines: seq<string>, i: nat, sectionStart: int, ranges: seq<FoldingRange>)
    requires i <= |lines|
  {
    var hs := Headers(isHeader, lines, i);
    sectionStart == (if hs == [] then 0 else hs[|hs| - 1]) && ranges == Closed(lines, hs)
  }

  /** `provideFoldingRanges`: one pass over the lines remembering where the
      open section started. The header pattern is a parameter;
      `DocumentFoldingRanges` passes the DeHackEd one. */
  method ProvideFoldingRanges(isHeader: string -> bool, lines: seq<string>) returns (ranges: seq<FoldingRange>)
    ensures ranges == FoldingRanges(isHeader, lines)
  {
    var sectionStart := 0;
    ranges := [];
    for i := 0 to |lines|
      invariant Scanned(isHeader, lines, i, sectionStart, ranges)
    {
      if isHeader(lines[i]) {
        ranges := ScanHeaderLine(isHeader, lines, i, sectionStart, ranges);
        sectionStart := i;
      } else {
        ScanPlain(isHeader, lines, i, sectionStart, ranges);
      }
    }
    ghost var before := ranges;
    if sectionStart > 0 {
      ranges := ranges + [FoldingRange(sectionStart, |lines| - 1, Region)];
    }
    ScanDone(isHeader, lines, sectionStart, before);
  }

  /** `provideFoldingRanges` with the DeHackEd header pattern. */
  method DocumentFoldingRanges(lines: seq<string>) returns (ranges: seq<FoldingRange>)
    ensures ranges == FoldingRanges(IsHeader, lines)
  {
    ranges := ProvideFoldingRanges(IsHeader, lines);
  }

  lemma ScanPlain(isHeader: string -> bool, lines: seq<string>, i: nat, sectionStart: int, ranges: seq<FoldingRange>)
    requires i < |lines| && !isHeader(lines[i])
    requires Scanned(isHeader, lines, i, sectionStart, ranges)
    ensures Scanned(isHeader, lines, i + 1, sectionStart, ranges)
  {
    HeadersStep(isHeader, lines, i);
    assert Headers(isHeader, lines, i + 1) == Headers(isHeader, lines, i);
  }

  /** The loop body for a header line: it closes the open section, if any,
      just before this line (one line earlier after a blank line). */
  method ScanHeaderLine(isHeader: string -> bool, lines: seq<string>, i: nat, sectionStart: int, ranges: seq<FoldingRange>)
    returns (ranges': seq<FoldingRange>)
    requires i < |lines| && isHeader(lines[i])
    requires Scanned(isHeader, lines, i, sectionStart, ranges)
    ensures Scanned(isHeader, lines, i + 1, i, ranges')
  {
    if sectionStart > 0 {
      ScanHeaderOpen(isHeader, lines, i, sectionStart, ranges);
      var blank := IsBlankLine(lines[i - 1]);
      var extra := if blank then 1 else 0;
      ranges' := ranges + [FoldingRange(sectionStart, i - (1 + extra), Region)];
    } else {
      ScanHeaderFirst(isHeader, lines, i, sectionStart, ranges);
      ranges' := ranges;
    }
  }

  lemma ScanHeaderOpen(isHeader: string -> bool, lines: seq<string>, i: nat, sectionStart: int, ranges: seq<FoldingRange>)
    requires i < |lines| && isHeader(lines[i])
    requires Scanned(isHeader, lines, i, sectionStart, ranges) && sectionStart > 0
    ensures i > 0
    ensures Scanned(isHeader, lines, i + 1, i, ranges + [FoldingRange(sectionStart, EndBefore(lines, i), Region)])
  {
    HeadersStep(isHeader, lines, i);
    ClosedSnoc(lines, Headers(isHeader, lines, i), i);
  }

  lemma ScanHeaderFirst(isHeader: string -> bool, lines: seq<string>, i: nat, sectionStart: int, ranges: seq<FoldingRange>)
    requires i < |lines| && isHeader(lines[i])
    requires Scanned(isHeader, lines, i, sectionStart, ranges) && sectionStart <= 0
    ensures Scanned(isHeader, lines, i + 1, i, ranges)
  {
    HeadersStep(isHeader, lines, i);
    if i > 0 {
      ClosedSnoc(lines, Headers(isHeader, lines, i), i);
    }
  }

  lemma ScanDone(isHeader: string -> bool, lines: seq<string>, sectionStart: int, ranges: seq<FoldingRange>)
    requires Scanned(isHeader, lines, |lines|, sectionStart, ranges)
    ensures FoldingRanges(isHeader, lines) == if sectionStart > 0 then ranges + [FoldingRange(sectionStart, |lines| - 1, Region)] else ranges
  {
  }

  // ---- properties --------------------------------------------------------

  /** A further header closes the region the last one opened. */
  lemma {:induction false} ClosedSnoc(lines: seq<string>, hs: seq<nat>, h: nat)
    requires forall k :: 0 <= k < |hs| ==> 1 <= hs[k] <= |lines|
    requires 1 <= h <= |lines|
    ensures Closed(lines, hs + [h]) == Closed(lines, hs) + if hs == [] then [] else [FoldingRange(hs[|hs| - 1], EndBefore(lines, h), Region)]
  {
    assert (hs + [h])[..|hs|] == hs;
  }

  /** The k-th closed region starts at the k-th header and ends before the
      next one. */
  lemma {:induction false} ClosedAt(lines: seq<string>, hs: seq<nat>, k: nat)
    requires forall j :: 0 <= j < |hs| ==> 1 <= hs[j] <= |lines|
    requires k + 1 < |hs|
    ensures Closed(lines, hs)[k] == FoldingRange(hs[k], EndBefore(lines, hs[k + 1]), Region)
    decreases |hs|
  {
    if k + 2 < |hs| {
      ClosedAt(lines, hs[..|hs| - 1], k);
    }
  }

  /** Region k starts at the k-th header line after line 0, so a header at
      line 0 opens nothing and every other header opens exactly one region;
      it ends just before the next header (one line earlier when the line
      before that header is blank), and the last one at the last line. */
  lemma {:induction false} RegionsOfHeaders(isHeader: string -> bool, lines: seq<string>)
    ensures var rs, hs := FoldingRanges(isHeader, lines), Headers(isHeader, lines, |lines|);
      |rs| == |hs|
      && (forall k :: 0 <= k < |rs| ==> rs[k].start == hs[k] && rs[k].kind == Region)
      && (forall k :: 0 <= k < |rs| - 1 ==> rs[k].end == EndBefore(lines, hs[k + 1]))
      && (|rs| > 0 ==> rs[|rs| - 1].end == |lines| - 1)
  {
    var hs := Headers(isHeader, lines, |lines|);
    RegionsOf(lines, hs, FoldingRanges(isHeader, lines));
  }

  /** The regions of any ascending list of header lines, closed and then
      the last one. */
  lemma {:induction false} RegionsOf(lines: seq<string>, hs: seq<nat>, rs: seq<FoldingRange>)
    requires forall k :: 0 <= k < |hs| ==> 1 <= hs[k] <= |lines|
    requires rs == Closed(lines, hs) + if hs == [] then [] else [FoldingRange(hs[|hs| - 1], |lines| - 1, Region)]
    ensures |rs| == |hs|
    ensures forall k :: 0 <= k < |rs| ==> rs[k].start == hs[k] && rs[k].kind == Region
    ensures forall k :: 0 <= k < |rs| - 1 ==> rs[k].end == EndBefore(lines, hs[k + 1])
    ensures |rs| > 0 ==> rs[|rs| - 1].end == |lines| - 1
  {
    var closed := Closed(lines, hs);
    forall k | 0 <= k < |rs|
      ensures rs[k].start == hs[k] && rs[k].kind == Region
      ensures k < |rs| - 1 ==> rs[k].end == EndBefore(lines, hs[k + 1])
    {
      if k < |rs| - 1 {
        ClosedAt(lines, hs, k);
        assert rs[k] == closed[k];
      } else {
        assert rs[k] == FoldingRange(hs[|hs| - 1], |lines| - 1, Region);
      }
    }
  }

  /** No region starts at line 0, and every region starts at a header. */
  lemma {:induction false} RegionsStartAtHeaders(isHeader: string -> bool, lines: seq<string>)
    ensures forall r :: r in FoldingRanges(isHeader, lines) ==> 1 <= r.start < |lines| && isHeader(lines[r.start])
  {
    RegionsOfHeaders(isHeader, lines);
  }

  /** Regions come in increasing order of start line and do not overlap. */
  lemma {:induction false} RegionsOrdered(isHeader: string -> bool, lines: seq<string>)
    ensures var rs := FoldingRanges(isHeader, lines);
      forall j, k :: 0 <= j < k < |rs| ==> rs[j].start < rs[k].start && rs[j].end < rs[k].start
  {
    RegionsOfHeaders(isHeader, lines);
    var rs, hs := FoldingRanges(isHeader, lines), Headers(isHeader, lines, |lines|);
    forall j, k | 0 <= j < k < |rs|
      ensures rs[j].end < rs[k].start
    {
      assert rs[j].end <= hs[j + 1] - 1;
      assert hs[j + 1] <= hs[k];
    }
  }

  /** Every region starts no later than it ends, as long as no header line
      is blank: when the next header directly follows, the line before it is
      that header. */
  lemma {:induction false} RegionsNonEmpty(isHeader: string -> bool, lines: seq<string>)
    requires forall line :: isHeader(line) ==> !AllSpace(line)
    ensures forall r :: r in FoldingRanges(isHeader, lines) ==> r.start <= r.end
  {
    var rs, hs := FoldingRanges(isHeader, lines), Headers(isHeader, lines, |lines|);
    RegionsOf(lines, hs, rs);
    forall k | 0 <= k < |hs|
      ensures !AllSpace(lines[hs[k]])
    {
      assert isHeader(lines[hs[k]]);
    }
    AscendingRegionsNonEmpty(lines, hs, rs);
  }

  /** Regions between ascending header lines that are not blank never run
      backwards. */
  lemma {:induction false} AscendingRegionsNonEmpty(lines: seq<string>, hs: seq<nat>, rs: seq<FoldingRange>)
    requires forall k :: 0 <= k < |hs| ==> 1 <= hs[k] < |lines| && !AllSpace(lines[hs[k]])
    requires forall j, k :: 0 <= j < k < |hs| ==> hs[j] < hs[k]
    requires |rs| == |hs|
    requires forall k :: 0 <= k < |rs| ==> rs[k].start == hs[k]
    requires forall k :: 0 <= k < |rs| - 1 ==> rs[k].end == EndBefore(lines, hs[k + 1])
    requires |rs| > 0 ==> rs[|rs| - 1].end == |lines| - 1
    ensures forall r :: r in rs ==> r.start <= r.end
  {
    forall k | 0 <= k < |rs|
      ensures rs[k].start <= rs[k].end
    {
      if k < |rs| - 1 {
        var h := hs[k + 1];
        assert hs[k] < h;
        assert h - 1 == hs[k] ==> !AllSpace(lines[h - 1]);
      }
    }
  }

  /** The document's regions never run backwards: no header line is blank. */
  lemma {:induction false} DocumentRegionsNonEmpty(lines: seq<string>)
    ensures forall r :: r in FoldingRanges(IsHeader, lines) ==> r.start <= r.end
  {
    forall line | IsHeader(line)
      ensures !AllSpace(line)
    {
      HeaderNotBlank(line);
      BlankIsAllSpace(line);
    }
    RegionsNonEmpty(IsHeader, lines);
  }
}
