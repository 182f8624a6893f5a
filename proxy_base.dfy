/** The protocol-independent decisions of the base debug-adapter proxy:
    client/debugger conventions for lines, columns and paths, the defaults
    filled into the client's `initialize` arguments, `{name}` placeholder
    formatting, log-level ordering and the exit code chosen when the socket
    to the debugger ends. */
module ProxyBase {
  import opened Wrappers
  import opened Text

  // ---- conventions -------------------------------------------------------

  /** How the debugger counts lines and columns and spells paths. */
  datatype DebuggerLocale = DebuggerLocale(linesStartAt1: bool, columnsStartAt1: bool, pathsAreURIs: bool)

  /** The client's `initialize` arguments after defaulting. `supportsVariableType`
      is never defaulted, so it stays absent when the client left it out. */
  datatype ClientCaps = ClientCaps(
    adapterID: string,
    linesStartAt1: bool,
    columnsStartAt1: bool,
    pathFormat: string,
    supportsVariableType: Option<bool>,
    pathsAreURIs: bool)

  /** The `initialize` arguments as received; a field that is missing or of
      the wrong JSON type is `None`. */
  datatype InitializeArgs = InitializeArgs(
    adapterID: Option<string>,
    linesStartAt1: Option<bool>,
    columnsStartAt1: Option<bool>,
    pathFormat: Option<string>,
    supportsVariableType: Option<bool>)

  const DEFAULT_ADAPTER_ID: string := "DebugAdapterProxy"

  const DEFAULT_CLIENT_CAPABILITIES: ClientCaps :=
    ClientCaps(DEFAULT_ADAPTER_ID, true, true, "path", Some(true), false)

  /** The locale assumed when none is configured; GZDoom's is the same. */
  const DEFAULT_DEBUGGER_LOCALE: DebuggerLocale := DebuggerLocale(true, true, false)

  /** 1 for a one-based convention, 0 for a zero-based one. */
  function Base(startsAt1: bool): (b: int)
    ensures b == 0 || b == 1
  {
    if startsAt1 then 1 else 0
  }

  /** `setClientCapabilities`: fills in what the client left out. The default
      adapter id is a parameter because the shared default object is
      mutated by the GZDoom proxy's constructor. A client that does not state
      `supportsVariableType` has its `columnsStartAt1` overwritten with the
      default `supportsVariableType` value (true). */
  function SetClientCapabilities(args: InitializeArgs, defaultAdapterID: string): (caps: ClientCaps)
    ensures caps.adapterID == (if args.adapterID.Some? then args.adapterID.value else defaultAdapterID)
    ensures caps.linesStartAt1 == (args.linesStartAt1.None? || args.linesStartAt1.value)
    ensures args.supportsVariableType.Some? ==> caps.columnsStartAt1 == (args.columnsStartAt1.None? || args.columnsStartAt1.value)
    ensures args.supportsVariableType.None? ==> caps.columnsStartAt1
    ensures caps.pathFormat == (if args.pathFormat.Some? then args.pathFormat.value else "path")
    ensures caps.pathsAreURIs <==> caps.pathFormat == "uri"
    ensures caps.supportsVariableType == args.supportsVariableType
  {
    var d := DEFAULT_CLIENT_CAPABILITIES;
    var adapterID := if args.adapterID.Some? then args.adapterID.value else defaultAdapterID;
    var lines := if args.linesStartAt1.Some? then args.linesStartAt1.value else d.linesStartAt1;
    var columns := if args.columnsStartAt1.Some? then args.columnsStartAt1.value else d.columnsStartAt1;
    var pathsAreURIs := if args.pathFormat.Some? then args.pathFormat.value == "uri" else d.pathsAreURIs;
    var pathFormat := if args.pathFormat.Some? then args.pathFormat.value else d.pathFormat;
    var columns' := if args.supportsVariableType.Some? then columns else d.supportsVariableType.value;
    ClientCaps(adapterID, lines, columns', pathFormat, args.supportsVariableType, pathsAreURIs)
  }

  // ---- line and column conversions ---------------------------------------

  function ClientLineToDebugger(locale: DebuggerLocale, caps: ClientCaps, line: int): (r: int)
    ensures r == line + Base(locale.linesStartAt1) - Base(caps.linesStartAt1)
  {
    if locale.linesStartAt1 then (if caps.linesStartAt1 then line else line + 1)
    else (if caps.linesStartAt1 then line - 1 else line)
  }

  function DebuggerLineToClient(locale: DebuggerLocale, caps: ClientCaps, line: int): (r: int)
    ensures r == line - Base(locale.linesStartAt1) + Base(caps.linesStartAt1)
  {
    if locale.linesStartAt1 then (if caps.linesStartAt1 then line else line - 1)
    else (if caps.linesStartAt1 then line + 1 else line)
  }

  function ClientColumnToDebugger(locale: DebuggerLocale, caps: ClientCaps, column: int): (r: int)
    ensures r == column + Base(locale.columnsStartAt1) - Base(caps.columnsStartAt1)
  {
    if locale.columnsStartAt1 then (if caps.columnsStartAt1 then column else column + 1)
    else (if caps.columnsStartAt1 then column - 1 else column)
  }

  function DebuggerColumnToClient(locale: DebuggerLocale, caps: ClientCaps, column: int): (r: int)
    ensures r == column - Base(locale.columnsStartAt1) + Base(caps.columnsStartAt1)
  {
    if locale.columnsStartAt1 then (if caps.columnsStartAt1 then column else column - 1)
    else (if caps.columnsStartAt1 then column + 1 else column)
  }

  /** Converting a line or column to the debugger and back (or the other way
      round) gives the number that went in. */
  lemma {:induction false} ConversionsInverse(locale: DebuggerLocale, caps: ClientCaps, n: int)
    ensures DebuggerLineToClient(locale, caps, ClientLineToDebugger(locale, caps, n)) == n
    ensures ClientLineToDebugger(locale, caps, DebuggerLineToClient(locale, caps, n)) == n
    ensures DebuggerColumnToClient(locale, caps, ClientColumnToDebugger(locale, caps, n)) == n
    ensures ClientColumnToDebugger(locale, caps, DebuggerColumnToClient(locale, caps, n)) == n
  {
  }

  /** When both sides count lines (columns) from the same base, conversion
      changes nothing. */
  lemma {:induction false} SameBaseIsIdentity(locale: DebuggerLocale, caps: ClientCaps, n: int)
    ensures locale.linesStartAt1 == caps.linesStartAt1 ==>
      ClientLineToDebugger(locale, caps, n) == n && DebuggerLineToClient(locale, caps, n) == n
    ensures locale.columnsStartAt1 == caps.columnsStartAt1 ==>
      ClientColumnToDebugger(locale, caps, n) == n && DebuggerColumnToClient(locale, caps, n) == n
  {
  }

  // ---- path conversions --------------------------------------------------

  /** `uri2path` and `path2uri`, which depend on URL percent-encoding and the
      platform, are supplied by the caller. */
  datatype UriCodec = UriCodec(uriToPath: string -> string, pathToUri: string -> string)

  function ClientPathToDebugger(locale: DebuggerLocale, caps: ClientCaps, codec: UriCodec, p: string): (r: string)
    ensures caps.pathsAreURIs == locale.pathsAreURIs ==> r == p
    ensures caps.pathsAreURIs && !locale.pathsAreURIs ==> r == codec.uriToPath(p)
    ensures !caps.pathsAreURIs && locale.pathsAreURIs ==> r == codec.pathToUri(p)
  {
    if caps.pathsAreURIs != locale.pathsAreURIs then
      (if caps.pathsAreURIs then codec.uriToPath(p) else codec.pathToUri(p))
    else p
  }

  function DebuggerPathToClient(locale: DebuggerLocale, caps: ClientCaps, codec: UriCodec, p: string): (r: string)
    ensures caps.pathsAreURIs == locale.pathsAreURIs ==> r == p
    ensures locale.pathsAreURIs && !caps.pathsAreURIs ==> r == codec.uriToPath(p)
    ensures !locale.pathsAreURIs && caps.pathsAreURIs ==> r == codec.pathToUri(p)
  {
    if locale.pathsAreURIs != caps.pathsAreURIs then
      (if locale.pathsAreURIs then codec.uriToPath(p) else codec.pathToUri(p))
    else p
  }

  /** When the codec's two directions undo each other on `p`, a path sent to
      the debugger and back is unchanged. */
  lemma {:induction false} PathConversionsInverse(locale: DebuggerLocale, caps: ClientCaps, codec: UriCodec, p: string)
    requires codec.uriToPath(codec.pathToUri(p)) == p && codec.pathToUri(codec.uriToPath(p)) == p
    ensures DebuggerPathToClient(locale, caps, codec, ClientPathToDebugger(locale, caps, codec, p)) == p
    ensures ClientPathToDebugger(locale, caps, codec, DebuggerPathToClient(locale, caps, codec, p)) == p
  {
  }

  // ---- `{name}` placeholders ---------------------------------------------

  /** The index of the first '}' in `s`, or -1. */
  function BraceEnd(s: string): (k: int)
    ensures k == -1 <==> '}' !in s
    ensures k != -1 ==> 0 <= k < |s| && s[k] == '}' && '}' !in s[..k]
  {
    if s == [] then -1
    else if s[0] == '}' then 0
    else
      var k := BraceEnd(s[1..]);
      if k == -1 then -1
      else
        assert s[..k + 1] == [s[0]] + s[1..][..k];
        k + 1
  }

  /** The replacement for one placeholder `whole` == "{" + name + "}". */
  function Substitute(name: string, whole: string, excludePII: bool, args: map<string, string>): string {
    if excludePII && |name| > 0 && name[0] != '_' then whole
    else if name in args && args[name] != "" then args[name]
    else whole
  }

  /** `formatPII`: every `{name}` with a non-empty name not containing '}' is
      replaced by `args[name]` when that is present and non-empty; with
      `excludePII` only names starting with '_' are replaced. The search
      resumes after each placeholder, as a global regular-expression
      replacement does. */
  function FormatPII(format: string, excludePII: bool, args: map<string, string>): (r: string)
    decreases |format|
  {
    if format == [] then ""
    else if format[0] == '{' then
      var k := BraceEnd(format[1..]);
      if k > 0 then
        Substitute(format[1..k + 1], format[..k + 2], excludePII, args) + FormatPII(format[k + 2..], excludePII, args)
      else [format[0]] + FormatPII(format[1..], excludePII, args)
    else [format[0]] + FormatPII(format[1..], excludePII, args)
  }

  /** Only the arguments whose names mark them as not personal ('_' first). */
  function PublicArgs(args: map<string, string>): (r: map<string, string>)
    ensures forall n :: n in r <==> n in args && |n| > 0 && n[0] == '_'
    ensures forall n :: n in r ==> r[n] == args[n]
  {
    map n | n in args && |n| > 0 && n[0] == '_' :: args[n]
  }

  /** A format without '{' is returned as it is. */
  lemma {:induction false} FormatPIIPlain(format: string, excludePII: bool, args: map<string, string>)
    requires '{' !in format
    ensures FormatPII(format, excludePII, args) == format
    decreases |format|
  {
    if format != [] {
      assert format == [format[0]] + format[1..];
      FormatPIIPlain(format[1..], excludePII, args);
    }
  }

  /** With no arguments every placeholder stays as written. */
  lemma {:induction false} FormatPIINoArgs(format: string, excludePII: bool)
    ensures FormatPII(format, excludePII, map[]) == format
    decreases |format|
  {
    if format != [] {
      if format[0] == '{' && BraceEnd(format[1..]) > 0 {
        var k := BraceEnd(format[1..]);
        FormatPIINoArgs(format[k + 2..], excludePII);
        assert format[..k + 2] + format[k + 2..] == format;
      } else {
        FormatPIINoArgs(format[1..], excludePII);
        assert [format[0]] + format[1..] == format;
      }
    }
  }

  /** Excluding personal data is the same as formatting with only the
      '_'-prefixed arguments. */
  lemma {:induction false} FormatPIIExcluding(format: string, args: map<string, string>)
    ensures FormatPII(format, true, args) == FormatPII(format, false, PublicArgs(args))
    decreases |format|
  {
    if format != [] {
      if format[0] == '{' && BraceEnd(format[1..]) > 0 {
        var k := BraceEnd(format[1..]);
        var name := format[1..k + 1];
        assert Substitute(name, format[..k + 2], true, args) == Substitute(name, format[..k + 2], false, PublicArgs(args));
        FormatPIIExcluding(format[k + 2..], args);
      } else {
        FormatPIIExcluding(format[1..], args);
      }
    }
  }

  /** A format that is one placeholder becomes the argument's value, or stays
      as written when the argument is missing or empty. */
  lemma {:induction false} FormatPIISingle(name: string, args: map<string, string>)
    requires name != [] && '}' !in name
    ensures FormatPII("{" + name + "}", false, args) ==
      if name in args && args[name] != "" then args[name] else "{" + name + "}"
  {
    var f := "{" + name + "}";
    assert f[1..] == name + "}";
    assert BraceEnd(f[1..]) == |name| by {
      assert (name + "}")[..|name|] == name;
    }
    assert f[1..|name| + 1] == name;
    assert f[..|name| + 2] == f;
    assert f[|name| + 2..] == [];
  }

  // ---- log levels --------------------------------------------------------

  /** The levels from least to most severe. */
  const LEVELS: seq<string> := ["silent", "trace", "debug", "info", "warn", "error", "fatal"]

  /** `ConsoleLogger.levelToInt`: unknown levels rank like 'silent'. */
  function LevelToInt(level: string): (r: nat)
    ensures r % 10 == 0 && r <= 60
    ensures level !in LEVELS ==> r == 0
  {
    match level
    case "fatal" => 60
    case "error" => 50
    case "warn" => 40
    case "info" => 30
    case "debug" => 20
    case "trace" => 10
    case "silent" => 0
    case _ => 0
  }

  /** `ConsoleLogger.shouldLog` against the logger's threshold level. */
  predicate ShouldLog(level: string, threshold: string) {
    LevelToInt(level) >= LevelToInt(threshold)
  }

  /** The i-th level ranks 10 * i. */
  lemma {:induction false} LevelRank(i: nat)
    requires i < |LEVELS|
    ensures LevelToInt(LEVELS[i]) == 10 * i
  {
  }

  /** A message is logged exactly when its level is at least the threshold in
      the order silent, trace, debug, info, warn, error, fatal. */
  lemma {:induction false} LevelOrder(i: nat, j: nat)
    requires i < |LEVELS| && j < |LEVELS|
    ensures ShouldLog(LEVELS[j], LEVELS[i]) <==> i <= j
  {
    LevelRank(i);
    LevelRank(j);
  }

  /** With the default threshold 'info', exactly info, warn, error and fatal
      are logged. */
  lemma {:induction false} DefaultThreshold(level: string)
    ensures ShouldLog(level, "info") <==> level in {"info", "warn", "error", "fatal"}
  {
  }

  // ---- end of the debugger connection ------------------------------------

  /** How the socket to the debugger ended: closed, or failed with an optional
      error code name and an optional errno. */
  datatype SocketEnd = Closed | Failed(code: Option<string>, errno: Option<int>, message: string)

  /** What `start`'s close and error handlers do before stopping: the text
      and category of the output event sent to the client, whether an error
      is reported, and the exit code emitted. */
  datatype EndDecision = EndDecision(output: string, category: string, reportsError: bool, exitCode: int)

  function OnSocketEnd(connected: bool, end: SocketEnd): (d: EndDecision)
    ensures !d.reportsError <==> connected && (end.Closed? || end.code == Some("ECONNRESET"))
    ensures !d.reportsError ==> d.exitCode == 0
    ensures d.category == (if end.Failed? && d.reportsError then "important" else "console")
    ensures end.Closed? ==> d.output == if connected then "Connection closed." else "Connection closed without connecting!"
    ensures end.Closed? && !connected ==> d.exitCode == -1
    ensures end.Failed? && !d.reportsError ==> d.output == "Connection reset."
    ensures end.Failed? && d.reportsError ==>
      d.output == "Connection error: " + end.message
      && d.exitCode == (if end.errno.Some? then end.errno.value else 1)
  {
    match end
    case Closed =>
      if connected then EndDecision("Connection closed.", "console", false, 0)
      else EndDecision("Connection closed without connecting!", "console", true, -1)
    case Failed(code, errno, message) =>
      if connected && code.Some? && code.value != "" && code.value == "ECONNRESET" then EndDecision("Connection reset.", "console", false, 0)
      else EndDecision("Connection error: " + message, "important", true, errno.GetOr(1))
  }
}
