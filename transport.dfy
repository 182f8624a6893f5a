/** The base protocol of the Debug Adapter Protocol as the proxy speaks it to the
    debugger: every message is `Content-Length: N\r\n\r\n` followed by N bytes of
    UTF-8 JSON. JSON itself is outside the model: parsing is a function from the
    body bytes to a message (or nothing, for invalid JSON) and serialising is a
    function from a message to its JSON text. */
module Transport {
  import opened Wrappers
  import opened Text

  /** `\r\n\r\n`, the end of a header block. */
  const TWO_CRLF: seq<byte> := [13, 10, 13, 10]

  // ---- header parsing ----------------------------------------------------

  /** Header bytes read one character per byte. */
  function Latin1(b: seq<byte>): (s: string)
    ensures |s| == |b| && forall i :: 0 <= i < |b| ==> s[i] as int == b[i]
  {
    seq(|b|, i requires 0 <= i < |b| => b[i] as char)
  }

  /** `header.split(/\r?\n/)`: the pieces between line feeds, each without the
      carriage return that may precede its line feed. */
  function SplitLines(s: string): (r: seq<string>)
    ensures |r| >= 1
    ensures forall i :: 0 <= i < |r| ==> '\n' !in r[i]
    ensures '\n' !in s ==> r == [s]
    decreases |s|
  {
    IndexOfChar(s, '\n');
    var i := IndexOf(s, "\n");
    if i < 0 then [s]
    else
      var line := if i > 0 && s[i - 1] == '\r' then s[..i - 1] else s[..i];
      assert '\n' !in line by {
        forall j | 0 <= j < |line| ensures line[j] != '\n' {
          assert line[j] == s[j];
        }
      }
      [line] + SplitLines(s[i + 1..])
  }

  /** The text after a run of spaces (the ` *` of the field separator). */
  function SkipSpaces(s: string): (r: string)
    ensures |r| <= |s| && r == s[|s| - |r|..]
    ensures r != [] ==> r[0] != ' '
    ensures forall i :: 0 <= i < |s| - |r| ==> s[i] == ' '
  {
    if s != [] && s[0] == ' ' then SkipSpaces(s[1..]) else s
  }

  /** `line.split(/: *\/)`, its first two pieces: the key before the first ':' and,
      when the line has a ':', the value that follows it and its spaces, up to the
      next ':'. */
  function SplitField(line: string): (r: (string, Option<string>))
    ensures ':' !in r.0 && StartsWith(line, r.0)
    ensures r.1.None? <==> ':' !in line
    ensures r.1.Some? ==> ':' !in r.1.value
  {
    IndexOfChar(line, ':');
    var c := IndexOf(line, ":");
    if c < 0 then (line, None)
    else
      var after := SkipSpaces(line[c + 1..]);
      IndexOfChar(after, ':');
      var e := IndexOf(after, ":");
      assert ':' !in line[..c] by {
        forall j | 0 <= j < c ensures line[..c][j] != ':' { }
      }
      (line[..c], Some(if e < 0 then after else after[..e]))
  }

  /** `Number(s)` for the forms a length takes: decimal digits with white space
      around them, or white space only (which is 0). Every other string is NaN. */
  function NumberValue(s: string): Option<nat> {
    var t := Trim(s);
    if AllDigits(t) then Some(DecimalValue(t)) else None
  }

  predicate IsLengthLine(line: string) {
    SplitField(line).0 == "Content-Length"
  }

  /** The `contentLength` a `Content-Length` line sets; NaN, which compares false
      with every number just as -1 does here, is -1. */
  function LineLength(line: string): int {
    match SplitField(line).1
    case None => -1
    case Some(v) => match NumberValue(v) case Some(n) => n case None => -1
  }

  /** The `contentLength` after the header loop: the last `Content-Length` line wins. */
  function LengthAfterLines(lines: seq<string>, cl: int): int
    decreases |lines|
  {
    if lines == [] then cl
    else
      var before := LengthAfterLines(lines[..|lines| - 1], cl);
      if IsLengthLine(lines[|lines| - 1]) then LineLength(lines[|lines| - 1]) else before
  }

  function HeaderLength(header: seq<byte>, cl: int): int {
    LengthAfterLines(SplitLines(Latin1(header)), cl)
  }

  // ---- the deframer as a function ------------------------------------------

  /** The two fields of the deframer: the bytes not yet consumed and the length of
      the body being waited for (negative while a header is awaited). */
  datatype Deframing = Deframing(rawData: seq<byte>, contentLength: int)

  /** `rawData.indexOf('\r\n\r\n', from)`: the first end of a header block at or
      after `from`, or -1. */
  function HeaderEnd(raw: seq<byte>, from: nat): (r: int)
    ensures r == -1 || from <= r <= |raw| - 4
    decreases |raw| - from
  {
    if from + 4 > |raw| then -1
    else if raw[from..from + 4] == TWO_CRLF then from
    else HeaderEnd(raw, from + 1)
  }

  lemma {:induction false} HeaderEndIsIndexOf(raw: seq<byte>, from: nat)
    ensures HeaderEnd(raw, from) == IndexFrom(raw, TWO_CRLF, from)
    decreases |raw| - from
  {
    if from + 4 <= |raw| && raw[from..from + 4] != TWO_CRLF {
      HeaderEndIsIndexOf(raw, from + 1);
    }
  }

  /** A settled state: the loop of `handleData` has nothing more to do. */
  predicate Settled(st: Deframing) {
    if st.contentLength >= 0 then |st.rawData| < st.contentLength
    else HeaderEnd(st.rawData, 0) < 0
  }

  /** What one complete body hands to the message handler: nothing for an empty
      body or invalid JSON, otherwise the parsed message. */
  function Dispatch<M>(parse: seq<byte> -> Option<M>, body: seq<byte>): seq<M> {
    if |body| > 0 then (match parse(body) case Some(m) => [m] case None => []) else []
  }

  /** The messages a run of the loop dispatches and the state it leaves. */
  datatype Outcome<M> = Outcome(messages: seq<M>, left: Deframing)

  /** The loop of `handleData`: the messages dispatched and the state left over. */
  function Drain<M>(parse: seq<byte> -> Option<M>, read: (seq<byte>, int) -> int, st: Deframing): Outcome<M>
    decreases |st.rawData|, if st.contentLength >= 0 then 1 else 0
  {
    if st.contentLength >= 0 then
      if |st.rawData| >= st.contentLength then
        var rest := Drain(parse, read, Deframing(st.rawData[st.contentLength..], -1));
        Outcome(Dispatch(parse, st.rawData[..st.contentLength]) + rest.messages, rest.left)
      else Outcome([], st)
    else
      var idx := HeaderEnd(st.rawData, 0);
      if idx < 0 then Outcome([], st)
      else Drain(parse, read, Deframing(st.rawData[idx + 4..], read(st.rawData[..idx], st.contentLength)))
  }

  /** Successive `handleData` calls, one per chunk. */
  function Feed<M>(parse: seq<byte> -> Option<M>, read: (seq<byte>, int) -> int, st: Deframing, chunks: seq<seq<byte>>): Outcome<M>
    decreases |chunks|
  {
    if chunks == [] then Outcome([], st)
    else
      var first := Drain(parse, read, Deframing(st.rawData + chunks[0], st.contentLength));
      var rest := Feed(parse, read, first.left, chunks[1..]);
      Outcome(first.messages + rest.messages, rest.left)
  }

  function Concat(chunks: seq<seq<byte>>): seq<byte> {
    if chunks == [] then [] else chunks[0] + Concat(chunks[1..])
  }

  // ---- the deframer as an object -------------------------------------------

  /** The receiving half of the proxy's connection. `received` records the messages
      handed to `handleMessageFromServer`, in order. */
  class Deframer<M> {
    var rawData: seq<byte>
    var contentLength: int
    var received: seq<M>
    const parse: seq<byte> -> Option<M>

    constructor(parse: seq<byte> -> Option<M>)
      ensures rawData == [] && contentLength == -1 && received == []
      ensures this.parse == parse
    {
      this.parse := parse;
      rawData := [];
      contentLength := -1;
      received := [];
    }

    /** `connect`: forget any partial input. */
    method Connect()
      modifies this
      ensures rawData == [] && contentLength == -1 && received == old(received)
    {
      rawData := [];
      contentLength := -1;
    }

    /** The header loop of `handleData`: each `Content-Length` line of the block
        sets `contentLength`. */
    method ReadHeader(header: seq<byte>)
      modifies this
      ensures contentLength == HeaderLength(header, old(contentLength))
      ensures rawData == old(rawData) && received == old(received)
    {
      var lines := SplitLines(Latin1(header));
      for i := 0 to |lines|
        invariant contentLength == LengthAfterLines(lines[..i], old(contentLength))
        invariant rawData == old(rawData) && received == old(received)
      {
        assert lines[..i + 1][..i] == lines[..i];
        if SplitField(lines[i]).0 == "Content-Length" {
          contentLength := LineLength(lines[i]);
        }
      }
      assert lines[..|lines|] == lines;
    }

    /** `handleData`: append the chunk and dispatch every complete message. */
    method HandleData(data: seq<byte>)
      modifies this
      ensures var r := Drain(parse, HeaderLength, Deframing(old(rawData) + data, old(contentLength)));
              received == old(received) + r.messages && Deframing(rawData, contentLength) == r.left
    {
      ghost var start := Deframing(rawData + data, contentLength);
      rawData := rawData + data;
      while true
        invariant received + Drain(parse, HeaderLength, Deframing(rawData, contentLength)).messages
                  == old(received) + Drain(parse, HeaderLength, start).messages
        invariant Drain(parse, HeaderLength, Deframing(rawData, contentLength)).left
                  == Drain(parse, HeaderLength, start).left
        decreases |rawData|, if contentLength >= 0 then 1 else 0
      {
        ghost var prev := Deframing(rawData, contentLength);
        if contentLength >= 0 {
          if |rawData| >= contentLength {
            var msgData := rawData[..contentLength];
            rawData := rawData[contentLength..];
            contentLength := -1;
            ghost var before := received;
            if |msgData| > 0 {
              match parse(msgData)
              case Some(m) => received := received + [m];
              case None =>
            }
            ghost var next := Drain(parse, HeaderLength, Deframing(rawData, contentLength));
            assert received == before + Dispatch(parse, msgData);
            assert Drain(parse, HeaderLength, prev).messages == Dispatch(parse, msgData) + next.messages
                   && Drain(parse, HeaderLength, prev).left == next.left by {
              BodyStep(parse, HeaderLength, prev);
            }
            SeqAssoc(before, Dispatch(parse, msgData), next.messages);
            continue;
          }
        } else {
          var idx := HeaderEnd(rawData, 0);
          if idx != -1 {
            var header := rawData[..idx];
            ReadHeader(header);
            rawData := rawData[idx + 4..];
            HeaderStepAt(parse, HeaderLength, prev.rawData, prev.contentLength, idx, header, rawData, contentLength);
            continue;
          }
        }
        SettledDrain(parse, HeaderLength, prev);
        break;
      }
    }
  }

  // ---- encoding ------------------------------------------------------------

  function HeaderText(n: nat): (s: string)
    ensures IsAscii(s)
  {
    var d := NatToString(n);
    assert forall i :: 0 <= i < |d| ==> IsDigit(d[i]);
    "Content-Length: " + d
  }

  /** One frame around a body of bytes. */
  function Frame(body: seq<byte>): seq<byte> {
    AsciiBytes(HeaderText(|body|)) + TWO_CRLF + body
  }

  /** What `sendMessageToServer` writes for a message whose JSON text is `json`:
      the string `Content-Length: <UTF-8 length>\r\n\r\n<json>`, encoded as UTF-8. */
  function Encode(json: string): seq<byte> {
    Utf8(HeaderText(|Utf8(json)|) + "\r\n\r\n" + json)
  }

  /** The bytes written are exactly one frame around the UTF-8 encoding of the JSON. */
  lemma {:induction false} EncodeIsFrame(json: string)
    ensures Encode(json) == Frame(Utf8(json))
  {
    var head := HeaderText(|Utf8(json)|) + "\r\n\r\n";
    assert IsAscii(head);
    Utf8Append(head, json);
    Utf8OfAscii(head);
    assert AsciiBytes(head) == AsciiBytes(HeaderText(|Utf8(json)|)) + TWO_CRLF;
  }

  function Frames(bodies: seq<seq<byte>>): seq<byte> {
    if bodies == [] then [] else Frame(bodies[0]) + Frames(bodies[1..])
  }

  function Decoded<M>(parse: seq<byte> -> Option<M>, bodies: seq<seq<byte>>): seq<M> {
    if bodies == [] then [] else Dispatch(parse, bodies[0]) + Decoded(parse, bodies[1..])
  }

  // ---- lemmas --------------------------------------------------------------

  lemma {:induction false} Latin1OfAscii(s: string)
    requires IsAscii(s)
    ensures Latin1(AsciiBytes(s)) == s
  {
  }

  lemma {:induction false} TrimDigits(t: string)
    requires t != [] && AllDigits(t)
    ensures Trim(t) == t
  {
    assert IsDigit(t[0]) && !IsJsSpace(t[0]);
    assert TrimStart(t) == t;
    assert IsDigit(t[|t| - 1]) && !IsJsSpace(t[|t| - 1]);
  }

  /** Digits read back with `Number` give their value. */
  lemma {:induction false} NumberOfDigits(n: nat)
    ensures NumberValue(NatToString(n)) == Some(n)
  {
    TrimDigits(NatToString(n));
    DecimalRoundTrip(n);
  }

  /** The field split of a frame's header line: the key `Content-Length` and the digits. */
  lemma {:induction false} FieldOfHeader(n: nat)
    ensures SplitField(HeaderText(n)) == ("Content-Length", Some(NatToString(n)))
  {
    HeaderColon(n);
    DigitsNoColon(NatToString(n));
  }

  /** The first ':' of a frame's header line ends the key; spaces follow it,
      then the digits. */
  lemma {:induction false} HeaderColon(n: nat)
    ensures var s := HeaderText(n);
      IndexOf(s, ":") == 14 && s[..14] == "Content-Length" && SkipSpaces(s[15..]) == NatToString(n)
  {
    var d := NatToString(n);
    var s := HeaderText(n);
    assert s == "Content-Length: " + d;
    IndexOfChar(s, ':');
    assert s[14] == ':';
    forall j | 0 <= j < 14 ensures s[j] != ':' { }
    assert s[15..] == " " + d;
    assert d[0] != ' ' by { assert IsDigit(d[0]); }
    assert SkipSpaces(" " + d) == d by { assert (" " + d)[1..] == d; }
    assert s[..14] == "Content-Length";
  }

  /** Decimal digits hold no ':'. */
  lemma {:induction false} DigitsNoColon(d: string)
    requires forall j :: 0 <= j < |d| ==> IsDigit(d[j])
    ensures IndexOf(d, ":") < 0
  {
    IndexOfChar(d, ':');
    assert ':' !in d by {
      forall j | 0 <= j < |d| ensures d[j] != ':' { assert IsDigit(d[j]); }
    }
  }

  /** A frame's header line holds neither a carriage return nor a line feed. */
  lemma {:induction false} HeaderChars(n: nat)
    ensures forall j :: 0 <= j < |HeaderText(n)| ==> HeaderText(n)[j] != '\n' && HeaderText(n)[j] != '\r'
  {
    var d := NatToString(n);
    var s := HeaderText(n);
    assert s == "Content-Length: " + d;
    forall j | 0 <= j < |s| ensures s[j] != '\n' && s[j] != '\r' {
      if j >= 16 { assert s[j] == d[j - 16]; assert IsDigit(d[j - 16]); }
    }
  }

  lemma {:induction false} LinesOfHeader(n: nat)
    ensures SplitLines(HeaderText(n)) == [HeaderText(n)]
  {
    HeaderChars(n);
  }

  /** The value of the `Content-Length` line of a frame is the body length. */
  lemma {:induction false} HeaderOfFrame(n: nat)
    ensures HeaderLength(AsciiBytes(HeaderText(n)), -1) == n
  {
    var s := HeaderText(n);
    Latin1OfAscii(s);
    LinesOfHeader(n);
    FieldOfHeader(n);
    NumberOfDigits(n);
    assert [s][..0] == [];
  }

  lemma {:induction false} SeqAssoc<T>(a: seq<T>, b: seq<T>, c: seq<T>)
    ensures a + (b + c) == (a + b) + c
  {
  }

  /** The loop's step on a complete body. */
  lemma {:induction false} BodyStep<M>(parse: seq<byte> -> Option<M>, read: (seq<byte>, int) -> int, st: Deframing)
    requires 0 <= st.contentLength <= |st.rawData|
    ensures var next := Drain(parse, read, Deframing(st.rawData[st.contentLength..], -1));
            Drain(parse, read, st).messages == Dispatch(parse, st.rawData[..st.contentLength]) + next.messages
            && Drain(parse, read, st).left == next.left
  {
  }

  /** The loop's step on a complete header. */
  lemma {:induction false} HeaderStep<M>(parse: seq<byte> -> Option<M>, read: (seq<byte>, int) -> int, st: Deframing)
    requires st.contentLength < 0 && HeaderEnd(st.rawData, 0) >= 0
    ensures var idx := HeaderEnd(st.rawData, 0);
            Drain(parse, read, st) == Drain(parse, read, Deframing(st.rawData[idx + 4..], read(st.rawData[..idx], st.contentLength)))
  {
  }

  /** The loop always stops in a settled state, holding a suffix of its input:
      a partial body, or bytes with no complete header. */
  lemma {:induction false} DrainSettles<M>(parse: seq<byte> -> Option<M>, read: (seq<byte>, int) -> int, st: Deframing)
    ensures Settled(Drain(parse, read, st).left)
    ensures EndsWith(st.rawData, Drain(parse, read, st).left.rawData)
    decreases |st.rawData|, if st.contentLength >= 0 then 1 else 0
  {
    if st.contentLength >= 0 {
      if |st.rawData| >= st.contentLength {
        var next := Deframing(st.rawData[st.contentLength..], -1);
        BodyStep(parse, read, st);
        DrainSettles(parse, read, next);
        SuffixOfRest(st.rawData, st.contentLength, next.rawData, Drain(parse, read, next).left.rawData);
      }
    } else {
      var idx := HeaderEnd(st.rawData, 0);
      if idx >= 0 {
        var next := Deframing(st.rawData[idx + 4..], read(st.rawData[..idx], st.contentLength));
        HeaderStep(parse, read, st);
        DrainSettles(parse, read, next);
        SuffixOfRest(st.rawData, idx + 4, next.rawData, Drain(parse, read, next).left.rawData);
      }
    }
  }

  /** A suffix of what follows the first `k` bytes is a suffix of the whole. */
  lemma {:induction false} SuffixOfRest(a: seq<byte>, k: nat, b: seq<byte>, left: seq<byte>)
    requires k <= |a| && b == a[k..] && EndsWith(b, left)
    ensures EndsWith(a, left)
  {
    assert a[|a| - |left|..] == b[|b| - |left|..];
  }

  /** A settled state is left alone by the loop. */
  lemma {:induction false} SettledDrain<M>(parse: seq<byte> -> Option<M>, read: (seq<byte>, int) -> int, st: Deframing)
    requires Settled(st)
    ensures Drain(parse, read, st) == Outcome([], st)
  {
  }

  /** In a frame, the first `\r\n\r\n` is the one after the header line. */
  lemma {:induction false} FrameHeaderEnd(body: seq<byte>, rest: seq<byte>)
    ensures var h := AsciiBytes(HeaderText(|body|));
            HeaderEnd(Frame(body) + rest, 0) == |h|
            && (Frame(body) + rest)[..|h|] == h
            && (Frame(body) + rest)[|h| + 4..] == body + rest
  {
    var h := AsciiBytes(HeaderText(|body|));
    var raw := Frame(body) + rest;
    assert raw == h + TWO_CRLF + (body + rest);
    HeaderChars(|body|);
    assert OccursAt(raw, TWO_CRLF, |h|) by {
      assert raw[|h|..|h| + 4] == TWO_CRLF;
    }
    forall j | 0 <= j < |h| ensures !OccursAt(raw, TWO_CRLF, j) {
      assert raw[j] == h[j] == HeaderText(|body|)[j] as int != 13;
      assert raw[j..j + 4][0] == raw[j];
    }
    HeaderEndIsIndexOf(raw, 0);
  }

  /** One frame at the head of the input: its body is dispatched (or dropped) and
      decoding carries on from a fresh header with whatever follows. */
  lemma {:induction false} DrainFrame<M>(parse: seq<byte> -> Option<M>, body: seq<byte>, rest: seq<byte>)
    ensures var after := Drain(parse, HeaderLength, Deframing(rest, -1));
            var whole := Drain(parse, HeaderLength, Deframing(Frame(body) + rest, -1));
            whole.messages == Dispatch(parse, body) + after.messages && whole.left == after.left
  {
    var h := AsciiBytes(HeaderText(|body|));
    var raw := Frame(body) + rest;
    FrameHeaderEnd(body, rest);
    HeaderOfFrame(|body|);
    HeaderStep(parse, HeaderLength, Deframing(raw, -1));
    var st := Deframing(body + rest, |body|);
    assert Drain(parse, HeaderLength, Deframing(raw, -1)) == Drain(parse, HeaderLength, st);
    assert st.rawData[..|body|] == body && st.rawData[|body|..] == rest;
    BodyStep(parse, HeaderLength, st);
  }

  /** Decoding the frames of a list of bodies dispatches each body's message in order. */
  lemma {:induction false} DrainFrames<M>(parse: seq<byte> -> Option<M>, bodies: seq<seq<byte>>, rest: seq<byte>)
    ensures var after := Drain(parse, HeaderLength, Deframing(rest, -1));
            var whole := Drain(parse, HeaderLength, Deframing(Frames(bodies) + rest, -1));
            whole.messages == Decoded(parse, bodies) + after.messages && whole.left == after.left
  {
    if bodies == [] {
      assert Frames(bodies) + rest == rest;
    } else {
      var tail := Frames(bodies[1..]) + rest;
      assert Frames(bodies) + rest == Frame(bodies[0]) + tail;
      DrainFrame(parse, bodies[0], tail);
      DrainFrames(parse, bodies[1..], rest);
      var after := Drain(parse, HeaderLength, Deframing(rest, -1));
      var t := Drain(parse, HeaderLength, Deframing(tail, -1));
      assert t.messages == Decoded(parse, bodies[1..]) + after.messages;
      SeqAssoc(Dispatch(parse, bodies[0]), Decoded(parse, bodies[1..]), after.messages);
    }
  }

  /** Appending bytes after a `handleData` call continues from the state it left:
      the loop does not depend on where the input was cut. */
  lemma {:induction false} DrainAppend<M>(parse: seq<byte> -> Option<M>, read: (seq<byte>, int) -> int, st: Deframing, more: seq<byte>)
    ensures var first := Drain(parse, read, st);
            var second := Drain(parse, read, Deframing(first.left.rawData + more, first.left.contentLength));
            var whole := Drain(parse, read, Deframing(st.rawData + more, st.contentLength));
            whole.messages == first.messages + second.messages && whole.left == second.left
    decreases |st.rawData|, if st.contentLength >= 0 then 1 else 0, 1
  {
    if Settled(st) {
      SettledDrain(parse, read, st);
    } else if st.contentLength >= 0 {
      DrainAppendBody(parse, read, st, more);
    } else {
      DrainAppendHeader(parse, read, st, more);
    }
  }

  lemma {:induction false} DrainAppendBody<M>(parse: seq<byte> -> Option<M>, read: (seq<byte>, int) -> int, st: Deframing, more: seq<byte>)
    requires 0 <= st.contentLength <= |st.rawData|
    ensures var first := Drain(parse, read, st);
            var second := Drain(parse, read, Deframing(first.left.rawData + more, first.left.contentLength));
            var whole := Drain(parse, read, Deframing(st.rawData + more, st.contentLength));
            whole.messages == first.messages + second.messages && whole.left == second.left
    decreases |st.rawData|, 1, 0
  {
    var raw := st.rawData + more;
    var cl := st.contentLength;
    var body := st.rawData[..cl];
    var next := Deframing(st.rawData[cl..], -1);
    var first := Drain(parse, read, st);
    var n := Drain(parse, read, next);
    BodyStep(parse, read, st);
    assert first.messages == Dispatch(parse, body) + n.messages && first.left == n.left;
    assert raw[..cl] == body;
    assert raw[cl..] == next.rawData + more;
    var whole := Drain(parse, read, Deframing(raw, cl));
    var w := Drain(parse, read, Deframing(next.rawData + more, -1));
    BodyStep(parse, read, Deframing(raw, cl));
    assert whole.messages == Dispatch(parse, body) + w.messages && whole.left == w.left;
    DrainAppend(parse, read, next, more);
    var second := Drain(parse, read, Deframing(n.left.rawData + more, n.left.contentLength));
    assert w.messages == n.messages + second.messages && w.left == second.left;
    SeqAssoc(Dispatch(parse, body), n.messages, second.messages);
  }

  lemma {:induction false} DrainAppendHeader<M>(parse: seq<byte> -> Option<M>, read: (seq<byte>, int) -> int, st: Deframing, more: seq<byte>)
    requires st.contentLength < 0 && HeaderEnd(st.rawData, 0) >= 0
    ensures var first := Drain(parse, read, st);
            var second := Drain(parse, read, Deframing(first.left.rawData + more, first.left.contentLength));
            var whole := Drain(parse, read, Deframing(st.rawData + more, st.contentLength));
            whole.messages == first.messages + second.messages && whole.left == second.left
    decreases |st.rawData|, 0, 0
  {
    var next := HeaderAppendStep(parse, read, st, more);
    DrainAppend(parse, read, next, more);
  }

  /** A complete header in the input stays complete, and is read the same, when
      more bytes arrive. */
  lemma {:induction false} HeaderAppendStep<M>(parse: seq<byte> -> Option<M>, read: (seq<byte>, int) -> int, st: Deframing, more: seq<byte>) returns (next: Deframing)
    requires st.contentLength < 0 && HeaderEnd(st.rawData, 0) >= 0
    ensures |next.rawData| < |st.rawData|
    ensures Drain(parse, read, st) == Drain(parse, read, next)
    ensures Drain(parse, read, Deframing(st.rawData + more, st.contentLength))
            == Drain(parse, read, Deframing(next.rawData + more, next.contentLength))
  {
    var raw := st.rawData + more;
    var idx := HeaderEnd(st.rawData, 0);
    HeaderEndExtended(st.rawData, more, raw);
    var header := st.rawData[..idx];
    var cl := read(header, st.contentLength);
    next := Deframing(st.rawData[idx + 4..], cl);
    HeaderStepAt(parse, read, st.rawData, st.contentLength, idx, header, next.rawData, cl);
    SplitAppended(st.rawData, more, raw, idx);
    HeaderStepAt(parse, read, raw, st.contentLength, idx, header, next.rawData + more, cl);
  }

  /** Bytes after a complete header block do not move its end. */
  lemma {:induction false} HeaderEndExtended(a: seq<byte>, more: seq<byte>, raw: seq<byte>)
    requires raw == a + more && HeaderEnd(a, 0) >= 0
    ensures HeaderEnd(raw, 0) == HeaderEnd(a, 0)
  {
    HeaderEndIsIndexOf(a, 0);
    HeaderEndIsIndexOf(raw, 0);
    IndexOfExtended(a, more, TWO_CRLF);
  }

  lemma {:induction false} SplitAppended(a: seq<byte>, more: seq<byte>, raw: seq<byte>, idx: nat)
    requires raw == a + more && idx + 4 <= |a|
    ensures raw[..idx] == a[..idx] && raw[idx + 4..] == a[idx + 4..] + more
  {
    assert raw[..idx] == a[..idx];
    assert raw[idx + 4..] == a[idx + 4..] + more;
  }

  lemma {:induction false} HeaderStepAt<M>(parse: seq<byte> -> Option<M>, read: (seq<byte>, int) -> int, raw: seq<byte>, cl0: int, idx: int,
                        header: seq<byte>, rest: seq<byte>, cl: int)
    requires cl0 < 0 && HeaderEnd(raw, 0) == idx >= 0
    requires raw[..idx] == header && raw[idx + 4..] == rest && cl == read(header, cl0)
    ensures Drain(parse, read, Deframing(raw, cl0)) == Drain(parse, read, Deframing(rest, cl))
  {
    HeaderStep(parse, read, Deframing(raw, cl0));
  }

  /** However the input is cut into chunks, the messages dispatched are those of
      the whole input at once. */
  lemma {:induction false} FeedIsDrain<M>(parse: seq<byte> -> Option<M>, read: (seq<byte>, int) -> int, st: Deframing, chunks: seq<seq<byte>>)
    requires Settled(st)
    ensures Feed(parse, read, st, chunks) == Drain(parse, read, Deframing(st.rawData + Concat(chunks), st.contentLength))
    decreases |chunks|
  {
    if chunks == [] {
      assert st.rawData + Concat(chunks) == st.rawData;
      SettledDrain(parse, read, st);
    } else {
      var s0 := Deframing(st.rawData + chunks[0], st.contentLength);
      var more := Concat(chunks[1..]);
      var first := Drain(parse, read, s0);
      var rest := Feed(parse, read, first.left, chunks[1..]);
      var whole := Drain(parse, read, Deframing(s0.rawData + more, s0.contentLength));
      assert rest == Drain(parse, read, Deframing(first.left.rawData + more, first.left.contentLength)) by {
        DrainSettles(parse, read, s0);
        FeedIsDrain(parse, read, first.left, chunks[1..]);
      }
      assert whole.messages == first.messages + rest.messages && whole.left == rest.left by {
        DrainAppend(parse, read, s0, more);
      }
      assert st.rawData + Concat(chunks) == s0.rawData + more;
    }
  }

  /** Round trip: the frames of a list of bodies, delivered in any chunks, decode to
      the messages of the bodies in order and leave the deframer empty. */
  lemma {:induction false} RoundTrip<M>(parse: seq<byte> -> Option<M>, bodies: seq<seq<byte>>, chunks: seq<seq<byte>>)
    requires Concat(chunks) == Frames(bodies)
    ensures Feed(parse, HeaderLength, Deframing([], -1), chunks) == Outcome(Decoded(parse, bodies), Deframing([], -1))
  {
    assert Settled(Deframing([], -1));
    FeedIsDrain(parse, HeaderLength, Deframing([], -1), chunks);
    assert [] + Concat(chunks) == Frames(bodies) + [];
    DrainFrames(parse, bodies, []);
    SettledDrain(parse, HeaderLength, Deframing([], -1));
  }

  /** With a parser that accepts every body, non-empty bodies come back unchanged. */
  lemma {:induction false} DecodedBodies(bodies: seq<seq<byte>>)
    requires forall i :: 0 <= i < |bodies| ==> bodies[i] != []
    ensures Decoded(b => Some(b), bodies) == bodies
  {
    if bodies != [] {
      DecodedBodies(bodies[1..]);
    }
  }

  /** A frame of length 0 is consumed and dispatches nothing. */
  lemma {:induction false} EmptyFrameSkipped<M>(parse: seq<byte> -> Option<M>, rest: seq<byte>)
    ensures Drain(parse, HeaderLength, Deframing(Frame([]) + rest, -1)) == Drain(parse, HeaderLength, Deframing(rest, -1))
  {
    DrainFrame(parse, [], rest);
  }

  /** A body that is not valid JSON is dropped and the next frame decodes normally. */
  lemma {:induction false} InvalidBodyDropped<M>(parse: seq<byte> -> Option<M>, body: seq<byte>, rest: seq<byte>)
    requires parse(body).None?
    ensures Drain(parse, HeaderLength, Deframing(Frame(body) + rest, -1)) == Drain(parse, HeaderLength, Deframing(rest, -1))
  {
    DrainFrame(parse, body, rest);
  }

  /** The last `Content-Length` line of a header decides the length. */
  lemma {:induction false} LastLengthWins(lines: seq<string>, cl: int, i: nat)
    requires i < |lines| && IsLengthLine(lines[i])
    requires forall j :: i < j < |lines| ==> !IsLengthLine(lines[j])
    ensures LengthAfterLines(lines, cl) == LineLength(lines[i])
    decreases |lines|
  {
    if i < |lines| - 1 {
      var init := lines[..|lines| - 1];
      assert forall j :: i < j < |init| ==> init[j] == lines[j];
      LastLengthWins(init, cl, i);
    }
  }

  /** Header lines without a `Content-Length` key leave the length as it was. */
  lemma {:induction false} NoLengthLine(lines: seq<string>, cl: int)
    requires forall j :: 0 <= j < |lines| ==> !IsLengthLine(lines[j])
    ensures LengthAfterLines(lines, cl) == cl
    decreases |lines|
  {
    if lines != [] {
      NoLengthLine(lines[..|lines| - 1], cl);
    }
  }

  /** A header block without a `Content-Length` line is discarded, and decoding looks
      for the next header. */
  lemma {:induction false} HeaderWithoutLength<M>(parse: seq<byte> -> Option<M>, header: seq<byte>, rest: seq<byte>)
    requires HeaderEnd(header + TWO_CRLF, 0) == |header|
    requires forall l :: l in SplitLines(Latin1(header)) ==> !IsLengthLine(l)
    ensures Drain(parse, HeaderLength, Deframing(header + TWO_CRLF + rest, -1))
            == Drain(parse, HeaderLength, Deframing(rest, -1))
  {
    var raw := header + TWO_CRLF + rest;
    assert HeaderEnd(raw, 0) == |header| by {
      HeaderEndIsIndexOf(header + TWO_CRLF, 0);
      HeaderEndIsIndexOf(raw, 0);
      assert raw == (header + TWO_CRLF) + rest;
      IndexOfExtended(header + TWO_CRLF, rest, TWO_CRLF);
    }
    assert HeaderLength(header, -1) == -1 by {
      var lines := SplitLines(Latin1(header));
      assert forall j :: 0 <= j < |lines| ==> lines[j] in lines;
      NoLengthLine(lines, -1);
    }
    assert raw[..|header|] == header;
    assert raw[|header| + 4..] == rest;
    HeaderStepAt(parse, HeaderLength, raw, -1, |header|, header, rest, -1);
  }


  // ---- the sending half ----------------------------------------------------

  function EncodeAll<M>(stringify: M -> string, msgs: seq<M>): seq<byte> {
    if msgs == [] then [] else Encode(stringify(msgs[0])) + EncodeAll(stringify, msgs[1..])
  }

  function Bodies<M>(stringify: M -> string, msgs: seq<M>): (r: seq<seq<byte>>)
    ensures |r| == |msgs| && forall i :: 0 <= i < |msgs| ==> r[i] == Utf8(stringify(msgs[i]))
  {
    if msgs == [] then [] else [Utf8(stringify(msgs[0]))] + Bodies(stringify, msgs[1..])
  }

  /** The bytes written for a run of messages are the frames of their JSON texts. */
  lemma {:induction false} EncodeAllIsFrames<M>(stringify: M -> string, msgs: seq<M>)
    ensures EncodeAll(stringify, msgs) == Frames(Bodies(stringify, msgs))
  {
    if msgs != [] {
      EncodeIsFrame(stringify(msgs[0]));
      EncodeAllIsFrames(stringify, msgs[1..]);
    }
  }

  /** The sending half of the proxy's connection: `serverMsgQueue`, whether the
      output stream exists, whether a socket exists, whether a one-time `connect`
      listener that flushes the queue is registered, and the messages written to
      the stream so far, in order. */
  class ServerChannel<M> {
    var outputOpen: bool
    var socketOpen: bool
    var flushOnConnect: bool
    var queue: seq<M>
    var wire: seq<M>
    const stringify: M -> string

    /** The bytes written to the output stream. */
    ghost function Written(): seq<byte>
      reads this
    {
      EncodeAll(stringify, wire)
    }

    constructor(stringify: M -> string)
      ensures !outputOpen && !socketOpen && !flushOnConnect && queue == [] && wire == []
      ensures this.stringify == stringify
    {
      this.stringify := stringify;
      outputOpen := false;
      socketOpen := false;
      flushOnConnect := false;
      queue := [];
      wire := [];
    }

    /** `start` creates the socket. */
    method Start()
      modifies this
      ensures socketOpen
      ensures outputOpen == old(outputOpen) && flushOnConnect == old(flushOnConnect)
      ensures queue == old(queue) && wire == old(wire)
    {
      socketOpen := true;
    }

    /** `sendMessageToServer`: without an output stream the message is queued, and
        the first queued message registers a flush on `connect` when a socket
        exists; otherwise its frame is written. */
    method Send(m: M)
      modifies this
      ensures outputOpen == old(outputOpen) && socketOpen == old(socketOpen)
      ensures !old(outputOpen) ==>
        queue == old(queue) + [m] && wire == old(wire)
        && flushOnConnect == (old(flushOnConnect) || (|queue| == 1 && socketOpen))
      ensures old(outputOpen) ==>
        queue == old(queue) && wire == old(wire) + [m] && flushOnConnect == old(flushOnConnect)
    {
      if !outputOpen {
        queue := queue + [m];
        if |queue| == 1 && socketOpen {
          flushOnConnect := true;
        }
        return;
      }
      wire := wire + [m];
    }

    /** `processServerMsgQueue`: with the stream open, send the queue in order. */
    method ProcessQueue()
      requires outputOpen
      modifies this
      ensures queue == [] && wire == old(wire) + old(queue)
      ensures outputOpen && socketOpen == old(socketOpen) && flushOnConnect == old(flushOnConnect)
    {
      ghost var sent: seq<M> := [];
      while |queue| > 0
        invariant outputOpen && socketOpen == old(socketOpen) && flushOnConnect == old(flushOnConnect)
        invariant old(queue) == sent + queue
        invariant wire == old(wire) + sent
        decreases |queue|
      {
        var msg := queue[0];
        queue := queue[1..];
        Send(msg);
        sent := sent + [msg];
      }
    }

    /** The socket's `connect` event: `connect` opens the output stream, then the
        one-time listener, if one was registered, flushes the queue. */
    method OnConnect()
      requires socketOpen
      modifies this
      ensures outputOpen && !flushOnConnect
      ensures old(flushOnConnect) ==> queue == [] && wire == old(wire) + old(queue)
      ensures !old(flushOnConnect) ==> queue == old(queue) && wire == old(wire)
    {
      outputOpen := true;
      if flushOnConnect {
        flushOnConnect := false;
        ProcessQueue();
      }
    }
  }
}
