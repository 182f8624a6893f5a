/** The GZDoom proxy's per-message rewrites: source paths in both directions
    against the project root and the case-insensitive index of scanned
    files, the rewrites applied to each kind of response and event, the
    routing of client requests, and error responses. */
module SourceRewrite {
  import opened Wrappers
  import opened Text
  import opened Paths
  import opened ProxyBase
  import opened Protocol
  import opened CustomSets

  /** GZDoom counts lines and columns from 1 and uses plain paths. */
  const GZDOOM_DAP_LOCALE: DebuggerLocale := DebuggerLocale(true, true, false)

  /** What a rewrite depends on: the single project root and archive, the
      scanned source paths (the items of the proxy's `ICaseSet`), the
      client's capabilities and the URI codec. */
  datatype SourceContext = SourceContext(
    projectPath: string,
    projectArchive: Option<string>,
    sourcePaths: seq<string>,
    caps: ClientCaps,
    codec: UriCodec)

  function LowerOpt(s: Option<string>): Option<string> {
    if s.Some? then Some(Lower(s.value)) else None
  }

  // ---- client to debugger ------------------------------------------------

  /** The path the debugger is sent for a client path: made relative to the
      project root unless that result starts with '..' or is still absolute. */
  function DebuggerPath(ctx: SourceContext, clientPath: string): (r: string)
  {
    var p := ClientPathToDebugger(GZDOOM_DAP_LOCALE, ctx.caps, ctx.codec, clientPath);
    var rel := if IsAbsolute(p) then Relative(ctx.projectPath, p) else p;
    if StartsWith(rel, "..") || IsAbsolute(rel) then p else rel
  }

  /** `convertClientSourceToDebugger`. */
  function ConvertClientSourceToDebugger(ctx: SourceContext, src: Source): (r: Source)
    ensures !Truthy(src.path) ==> r == src
    ensures Truthy(src.path) ==> r.path == Some(DebuggerPath(ctx, src.path.value))
    ensures Truthy(src.path) ==> r.origin == (if Truthy(src.origin) then src.origin else ctx.projectArchive)
    ensures r.name == src.name && r.sourceReference == src.sourceReference
  {
    if !Truthy(src.path) then src
    else
      src.(path := Some(DebuggerPath(ctx, src.path.value)),
           origin := if Truthy(src.origin) then src.origin else ctx.projectArchive)
  }

  lemma {:induction false} JoinWithStartsWithFirst(segs: seq<string>)
    requires |segs| > 0
    ensures StartsWith(JoinWith(segs), segs[0])
  {
    if |segs| > 1 {
      assert JoinWith(segs) == segs[0] + ("/" + JoinWith(segs[1..]));
      assert (segs[0] + ("/" + JoinWith(segs[1..])))[..|segs[0]|] == segs[0];
    }
  }

  /** A relative path of plain segments starts with '..' exactly when its
      first segment does. */
  lemma {:induction false} DotDotPrefix(segs: seq<string>)
    requires |segs| > 0 && PlainSegments(segs)
    ensures StartsWith(JoinWith(segs), "..") <==> StartsWith(segs[0], "..")
    ensures !IsAbsolute(JoinWith(segs))
  {
    JoinWithStartsWithFirst(segs);
    var j := JoinWith(segs);
    var x := segs[0];
    assert x != [] && x != "." && x[0] != '/';
    assert j[0] == x[0];
    if |x| >= 2 {
      assert j[..2] == x[..2];
    }
  }

  /** A plain path under the project root reaches the debugger relative to
      the root. */
  lemma {:induction false} ClientSourceUnderRoot(ctx: SourceContext, src: Source, root: seq<string>, rest: seq<string>)
    requires ctx.caps.pathsAreURIs == GZDOOM_DAP_LOCALE.pathsAreURIs
    requires PlainSegments(root) && PlainSegments(rest) && rest != []
    requires ctx.projectPath == "/" + JoinWith(root)
    requires src.path == Some("/" + JoinWith(root + rest))
    requires !StartsWith(rest[0], "..")
    ensures ConvertClientSourceToDebugger(ctx, src).path == Some(JoinWith(rest))
  {
    RelativeUnderRoot(root, rest);
    DotDotPrefix(rest);
  }

  /** Even a file whose first segment under the root merely starts with '..'
      (such as '..x') keeps its full path, as does any path outside the root. */
  lemma {:induction false} ClientSourceDotDotKept(ctx: SourceContext, src: Source, root: seq<string>, rest: seq<string>)
    requires ctx.caps.pathsAreURIs == GZDOOM_DAP_LOCALE.pathsAreURIs
    requires PlainSegments(root) && PlainSegments(rest) && rest != []
    requires ctx.projectPath == "/" + JoinWith(root)
    requires src.path == Some("/" + JoinWith(root + rest))
    requires StartsWith(rest[0], "..")
    ensures ConvertClientSourceToDebugger(ctx, src).path == src.path
  {
    RelativeUnderRoot(root, rest);
    DotDotPrefix(rest);
  }

  // ---- debugger to client ------------------------------------------------

  /** The path looked up in the index: a relative path from the project's own
      archive (compared ignoring case) is joined onto the project root. */
  function LookupPath(ctx: SourceContext, src: Source): string
    requires Truthy(src.path)
  {
    var p := src.path.value;
    if !IsAbsolute(p) && LowerOpt(src.origin) == LowerOpt(ctx.projectArchive) then Join(ctx.projectPath, p) else p
  }

  /** `convertDebuggerSourceToClient`. On an index hit the source takes the
      stored path, its basename and source reference 0; on a miss only the
      original (un-joined) path is converted. */
  function ConvertDebuggerSourceToClient(ctx: SourceContext, src: Source): (r: Source)
    ensures !Truthy(src.path) ==> r == src
    ensures r.origin == src.origin
  {
    if !Truthy(src.path) then src
    else
      var i := FindIndex(ICaseEqual, ctx.sourcePaths, LookupPath(ctx, src));
      if i < 0 || ctx.sourcePaths[i] == "" then
        src.(path := Some(DebuggerPathToClient(GZDOOM_DAP_LOCALE, ctx.caps, ctx.codec, src.path.value)))
      else
        var stored := ctx.sourcePaths[i];
        src.(path := Some(DebuggerPathToClient(GZDOOM_DAP_LOCALE, ctx.caps, ctx.codec, stored)),
             name := Some(Basename(stored)),
             sourceReference := Some(0))
  }

  /** A hit returns an indexed path equal to the looked-up one up to case. */
  lemma {:induction false} DebuggerSourceHit(ctx: SourceContext, src: Source)
    requires ctx.caps.pathsAreURIs == GZDOOM_DAP_LOCALE.pathsAreURIs
    requires Truthy(src.path)
    requires exists k :: 0 <= k < |ctx.sourcePaths| && ctx.sourcePaths[k] != "" && ctx.sourcePaths[k] == LookupPath(ctx, src)
    ensures var r := ConvertDebuggerSourceToClient(ctx, src);
      r.path.Some? && r.path.value in ctx.sourcePaths && Lower(r.path.value) == Lower(LookupPath(ctx, src))
      && r.name == Some(Basename(r.path.value)) && r.sourceReference == Some(0)
  {
    var k :| 0 <= k < |ctx.sourcePaths| && ctx.sourcePaths[k] != "" && ctx.sourcePaths[k] == LookupPath(ctx, src);
    assert ICaseEqual(LookupPath(ctx, src), ctx.sourcePaths[k]);
    var i := FindIndex(ICaseEqual, ctx.sourcePaths, LookupPath(ctx, src));
    assert 0 <= i <= k;
    if ctx.sourcePaths[i] == "" {
      assert false;
    }
  }

  /** A miss leaves every field but the path alone, and the path is the one
      the debugger sent, not the joined one. */
  lemma {:induction false} DebuggerSourceMiss(ctx: SourceContext, src: Source)
    requires ctx.caps.pathsAreURIs == GZDOOM_DAP_LOCALE.pathsAreURIs
    requires Truthy(src.path)
    requires forall k :: 0 <= k < |ctx.sourcePaths| ==> Lower(ctx.sourcePaths[k]) != Lower(LookupPath(ctx, src))
    ensures ConvertDebuggerSourceToClient(ctx, src) == src
  {
  }

  /** A file under the project root, once sent, is looked up again under its
      full path. */
  lemma {:induction false} SentSourceLookup(ctx: SourceContext, src: Source, root: seq<string>, rest: seq<string>)
    requires ctx.caps.pathsAreURIs == GZDOOM_DAP_LOCALE.pathsAreURIs
    requires PlainSegments(root) && PlainSegments(rest) && rest != []
    requires ctx.projectPath == "/" + JoinWith(root)
    requires src.path == Some("/" + JoinWith(root + rest))
    requires !StartsWith(rest[0], "..")
    requires !Truthy(src.origin) || src.origin == ctx.projectArchive
    ensures var sent := ConvertClientSourceToDebugger(ctx, src);
      Truthy(sent.path) && LookupPath(ctx, sent) == src.path.value
  {
    var sent := ConvertClientSourceToDebugger(ctx, src);
    ClientSourceUnderRoot(ctx, src, root, rest);
    DotDotPrefix(rest);
    JoinUnderRoot(root, rest);
    assert sent.path == Some(JoinWith(rest));
  }

  /** A scanned file under the project root sent to the debugger and reported
      back comes back with its full path and name. */
  lemma {:induction false} SourceRoundTrip(ctx: SourceContext, src: Source, root: seq<string>, rest: seq<string>)
    requires ctx.caps.pathsAreURIs == GZDOOM_DAP_LOCALE.pathsAreURIs
    requires PlainSegments(root) && PlainSegments(rest) && rest != []
    requires ctx.projectPath == "/" + JoinWith(root)
    requires src.path == Some("/" + JoinWith(root + rest))
    requires !StartsWith(rest[0], "..")
    requires !Truthy(src.origin) || src.origin == ctx.projectArchive
    requires Distinct(ICaseEqual, ctx.sourcePaths) && src.path.value in ctx.sourcePaths
    ensures var back := ConvertDebuggerSourceToClient(ctx, ConvertClientSourceToDebugger(ctx, src));
      back.path == src.path && back.name == Some(rest[|rest| - 1]) && back.sourceReference == Some(0)
      && back.origin == (if Truthy(src.origin) then src.origin else ctx.projectArchive)
  {
    var full := src.path.value;
    var sent := ConvertClientSourceToDebugger(ctx, src);
    SentSourceLookup(ctx, src, root, rest);
    var k :| 0 <= k < |ctx.sourcePaths| && ctx.sourcePaths[k] == full;
    StoredSourceReported(ctx, sent, k);
    BasenameOfRooted(root, rest);
  }

  /** A source whose looked-up path is stored in the index comes back with
      that stored path, its basename and source reference 0. */
  lemma StoredSourceReported(ctx: SourceContext, sent: Source, k: nat)
    requires ctx.caps.pathsAreURIs == GZDOOM_DAP_LOCALE.pathsAreURIs
    requires Truthy(sent.path) && Distinct(ICaseEqual, ctx.sourcePaths)
    requires k < |ctx.sourcePaths| && ctx.sourcePaths[k] == LookupPath(ctx, sent) && ctx.sourcePaths[k] != ""
    ensures var back := ConvertDebuggerSourceToClient(ctx, sent);
      back.path == Some(ctx.sourcePaths[k]) && back.name == Some(Basename(ctx.sourcePaths[k]))
      && back.sourceReference == Some(0) && back.origin == sent.origin
  {
    ICaseIsEquivalence();
    StoredItemFound(ICaseEqual, ctx.sourcePaths, k);
  }

  /** The basename of a rooted path of plain segments is its last segment. */
  lemma BasenameOfRooted(root: seq<string>, rest: seq<string>)
    requires PlainSegments(root) && PlainSegments(rest) && rest != []
    ensures Basename("/" + JoinWith(root + rest)) == rest[|rest| - 1]
  {
    assert PlainSegments(root + rest);
    ComponentsOfRooted(root + rest);
  }

  // ---- launch arguments --------------------------------------------------

  /** The `projectSources` a launch or attach request carries: every indexed
      path, as a source named by its basename with the project archive as
      origin, converted for the debugger. */
  function ProjectSources(ctx: SourceContext): (r: seq<Source>)
    ensures |r| == |ctx.sourcePaths|
    ensures forall i :: 0 <= i < |r| ==>
      r[i].name == Some(Basename(ctx.sourcePaths[i])) && r[i].sourceReference.None?
      && (ctx.sourcePaths[i] != "" ==>
            r[i].path == Some(DebuggerPath(ctx, ctx.sourcePaths[i])) && r[i].origin == ctx.projectArchive)
  {
    seq(|ctx.sourcePaths|, i requires 0 <= i < |ctx.sourcePaths| =>
      ConvertClientSourceToDebugger(ctx,
        Source(Some(Basename(ctx.sourcePaths[i])), Some(ctx.sourcePaths[i]), ctx.projectArchive, None)))
  }

  // ---- response and event rewrites ---------------------------------------

  /** The callback registered with a request, by the request's command. */
  datatype Callback =
    | DefaultHandler
    | BreakpointsHandler
    | StackTraceHandler
    | ScopesHandler
    | DisassembleHandler
    | LoadedSourcesHandler
    | DisconnectHandler

  /** The located items with every present source converted for the client. */
  function RewriteItems(ctx: SourceContext, items: seq<Located>): (r: seq<Located>)
    ensures |r| == |items|
    ensures forall i :: 0 <= i < |r| ==> (r[i].source.Some? <==> items[i].source.Some?)
  {
    seq(|items|, i requires 0 <= i < |items| =>
      if items[i].source.Some? then Located(Some(ConvertDebuggerSourceToClient(ctx, items[i].source.value))) else items[i])
  }

  function WithItems(r: Response, items: seq<Located>): Response
    requires r.body.Some?
  {
    r.(body := Some(r.body.value.(items := Some(items))))
  }

  /** What a callback sends to the client for a response, or `None` when it
      sends nothing: a `loadedSources` response is rewritten but never
      forwarded, and a callback that dereferences a missing body, a missing
      scope list or a stack frame without a source throws, and the response
      is lost. */
  function Reply(ctx: SourceContext, cb: Callback, r: Response): (reply: Option<Response>)
    ensures cb == DefaultHandler ==> reply == Some(r)
    ensures cb == LoadedSourcesHandler || cb == DisconnectHandler ==> reply.None?
    ensures reply.Some? ==> reply.value.(body := r.body) == r
    ensures reply.Some? && cb != DefaultHandler && r.body.Some? && r.body.value.items.Some? ==>
      reply.value == WithItems(r, RewriteItems(ctx, r.body.value.items.value))
    ensures cb == StackTraceHandler && r.body.Some? && r.body.value.items.Some? ==>
      (reply.Some? <==> forall i :: 0 <= i < |r.body.value.items.value| ==> r.body.value.items.value[i].source.Some?)
  {
    match cb
    case DefaultHandler => Some(r)
    case BreakpointsHandler =>
      if r.body.None? then None
      else if r.body.value.items.None? then Some(r)
      else Some(WithItems(r, RewriteItems(ctx, r.body.value.items.value)))
    case StackTraceHandler =>
      if r.body.None? then None
      else if r.body.value.items.None? then Some(r)
      else
        var frames := r.body.value.items.value;
        if exists i :: 0 <= i < |frames| && frames[i].source.None? then None
        else Some(WithItems(r, RewriteItems(ctx, frames)))
    case ScopesHandler =>
      if r.body.None? || r.body.value.items.None? then None
      else Some(WithItems(r, RewriteItems(ctx, r.body.value.items.value)))
    case DisassembleHandler =>
      if r.body.None? || r.body.value.items.None? then Some(r)
      else Some(WithItems(r, RewriteItems(ctx, r.body.value.items.value)))
    case LoadedSourcesHandler => None
    case DisconnectHandler => None
  }

  /** `handleOutputEvent` appends a newline to `body.output` (an absent output
      reads as "undefined"); a `loadedSource` event has `body.source`
      rewritten; other events pass unchanged. `None` when the handler throws
      on a missing body or source. */
  function EventReply(ctx: SourceContext, e: Event): (out: Option<Event>)
    ensures e.event != "output" && e.event != "loadedSource" ==> out == Some(e)
    ensures out.Some? ==> out.value.seqNum == e.seqNum && out.value.event == e.event && out.value.body.Some? == e.body.Some?
    ensures e.event == "output" && e.body.Some? && e.body.value.output.Some? ==>
      out.Some? && out.value.body.value.output == Some(e.body.value.output.value + "\n")
      && out.value.body.value.source == e.body.value.source
    ensures e.event == "loadedSource" ==>
      (out.Some? <==> e.body.Some? && e.body.value.source.Some?)
    ensures e.event == "loadedSource" && out.Some? ==>
      out.value.body.value.source == Some(ConvertDebuggerSourceToClient(ctx, e.body.value.source.value))
      && out.value.body.value.output == e.body.value.output
  {
    if e.event == "output" then
      if e.body.None? then None
      else
        var text := if e.body.value.output.Some? then e.body.value.output.value else "undefined";
        Some(e.(body := Some(e.body.value.(output := Some(text + "\n")))))
    else if e.event == "loadedSource" then
      if e.body.None? || e.body.value.source.None? then None
      else Some(e.(body := Some(e.body.value.(source := Some(ConvertDebuggerSourceToClient(ctx, e.body.value.source.value))))))
    else Some(e)
  }

  // ---- errors and routing ------------------------------------------------

  /** `sendErrorResponse` with a numeric code: the response fails, its message
      is the format with only '_'-prefixed variables filled in, and the body
      carries the error, shown to the user or sent to telemetry by the
      destination flags. */
  function ErrorResponse(response: Response, code: int, format: string, variables: Option<map<string, string>>, dest: bv8): (r: Response)
    ensures !r.success && r.seqNum == response.seqNum && r.requestSeq == response.requestSeq && r.command == response.command
    ensures r.message == Some(FormatPII(format, true, if variables.Some? then variables.value else map[]))
    ensures r.body.Some? && r.body.value.error == Some(ErrorMessage(code, format, variables, dest & USER != 0, dest & TELEMETRY != 0))
    ensures response.body.Some? ==> r.body.value.items == response.body.value.items && r.body.value.sources == response.body.value.sources
  {
    var msg := ErrorMessage(code, format, variables, dest & USER != 0, dest & TELEMETRY != 0);
    var body := if response.body.Some? then response.body.value else Body(None, None, None);
    response.(success := false,
              message := Some(FormatPII(format, true, if variables.Some? then variables.value else map[])),
              body := Some(body.(error := Some(msg))))
  }

  /** The response sent when handling a client request throws: code 1104 for
      telemetry, with the format '{_stack}'; the error object has no own
      '_stack' property, so the placeholder stays as written. */
  const STACK_FORMAT: string := "{_stack}"

  function CrashResponse(request: Request): (r: Response)
    ensures !r.success && r.requestSeq == request.seqNum && r.command == request.command
    ensures r.message == Some(STACK_FORMAT)
    ensures r.body.Some? && r.body.value.error.Some? && r.body.value.error.value.id == 1104
    ensures r.body.value.error.value.sendTelemetry && !r.body.value.error.value.showUser
  {
    FormatPIINoArgs(STACK_FORMAT, true);
    ErrorResponse(NewResponse(request, None), 1104, STACK_FORMAT, Some(map[]), TELEMETRY)
  }

  predicate IsLaunchOrAttach(command: string) {
    command == "launch" || command == "attach"
  }

  /** Where `handleClientRequest` sends a request once it is past the gate. */
  datatype Routed = Forward(request: Request, callback: Callback) | Reject(response: Response)

  /** The per-command handlers for requests other than launch and attach:
      sources in setBreakpoints and source requests are converted for the
      debugger, and each command gets its response callback. A setBreakpoints
      request without a source throws, which is answered with an error. */
  function Route(ctx: SourceContext, req: Request): (rt: Routed)
    ensures rt.Forward? ==>
      rt.request.seqNum == req.seqNum && rt.request.command == req.command &&
      rt.request.projectSources == req.projectSources && rt.request.init == req.init
    ensures rt.Reject? <==> req.command == "setBreakpoints" && req.source.None?
    ensures rt.Reject? ==> rt.response == CrashResponse(req)
    ensures (req.command == "setBreakpoints" || req.command == "source") && req.source.Some? ==>
      rt.request.source == Some(ConvertClientSourceToDebugger(ctx, req.source.value))
    ensures rt.Forward? && req.command != "setBreakpoints" && req.command != "source" ==> rt.request == req
    ensures rt.Forward? && req.command !in {"setBreakpoints", "stackTrace", "scopes", "disconnect", "loadedSources", "disassemble"} ==>
      rt.callback == DefaultHandler
  {
    if req.command == "setBreakpoints" then
      if req.source.None? then Reject(CrashResponse(req))
      else Forward(req.(source := Some(ConvertClientSourceToDebugger(ctx, req.source.value))), BreakpointsHandler)
    else if req.command == "stackTrace" then Forward(req, StackTraceHandler)
    else if req.command == "scopes" then Forward(req, ScopesHandler)
    else if req.command == "source" then
      if req.source.Some? then Forward(req.(source := Some(ConvertClientSourceToDebugger(ctx, req.source.value))), DefaultHandler)
      else Forward(req, DefaultHandler)
    else if req.command == "disconnect" then Forward(req, DisconnectHandler)
    else if req.command == "loadedSources" then Forward(req, LoadedSourcesHandler)
    else if req.command == "disassemble" then Forward(req, DisassembleHandler)
    else Forward(req, DefaultHandler)
  }
}
