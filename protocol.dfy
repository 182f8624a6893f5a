/** The parts of Debug Adapter Protocol messages the GZDoom proxy reads or
    rewrites. Fields the proxy never looks at are not represented; they pass
    through unchanged. */
module Protocol {
  import opened Wrappers
  import opened ProxyBase

  /** A DAP `Source`. A missing field is `None`. */
  datatype Source = Source(
    name: Option<string>,
    path: Option<string>,
    origin: Option<string>,
    sourceReference: Option<int>)

  /** JavaScript truthiness of an optional string: present and non-empty. */
  predicate Truthy(s: Option<string>) {
    s.Some? && s.value != ""
  }

  /** A breakpoint, stack frame, scope or disassembled instruction: an item of
      a response body that may refer to a source (`source`, or `location` for
      an instruction). */
  datatype Located = Located(source: Option<Source>)

  /** `ErrorDestination` flags, combined bitwise. */
  const USER: bv8 := 1
  const TELEMETRY: bv8 := 2

  /** A DAP `Message` describing an error. */
  datatype ErrorMessage = ErrorMessage(
    id: int,
    format: string,
    variables: Option<map<string, string>>,
    showUser: bool,
    sendTelemetry: bool)

  /** A response body: the located items of the command (`breakpoints`,
      `stackFrames`, `scopes` or `instructions`), the `sources` of a
      `loadedSources` response, and an `error`. */
  datatype Body = Body(items: Option<seq<Located>>, sources: Option<seq<Source>>, error: Option<ErrorMessage>)

  /** A request. `source` is `arguments.source` (setBreakpoints, source);
      `projectSources` is `arguments.projectSources` (launch, attach);
      `init` is the arguments of an `initialize` request. */
  datatype Request = Request(
    seqNum: int,
    command: string,
    source: Option<Source>,
    projectSources: Option<seq<Source>>,
    init: InitializeArgs)

  datatype Response = Response(
    seqNum: int,
    requestSeq: int,
    command: string,
    success: bool,
    message: Option<string>,
    body: Option<Body>)

  /** An event's body: `body.output`, `body.source` and `body.category`. */
  datatype EventBody = EventBody(output: Option<string>, source: Option<Source>, category: Option<string>)

  datatype Event = Event(seqNum: int, event: string, body: Option<EventBody>)

  datatype Message =
    | Req(request: Request)
    | Resp(response: Response)
    | Evt(ev: Event)
    | OtherMessage(seqNum: int, kind: string)

  /** `new Response(request, message?)` of the debug adapter library: the
      request's sequence number and command, sequence 0, and a failure
      carrying the message when one is given; an empty message is falsy and
      counts as none. */
  function NewResponse(request: Request, message: Option<string>): (r: Response)
    ensures r.requestSeq == request.seqNum && r.command == request.command
    ensures r.success <==> !Truthy(message)
    ensures r.success ==> r.message.None?
    ensures !r.success ==> r.message == message
    ensures r.body.None?
  {
    if Truthy(message) then Response(0, request.seqNum, request.command, false, message, None)
    else Response(0, request.seqNum, request.command, true, None, None)
  }

  /** `emitOutputEvent`: an 'output' event whose body holds only the
      category and the text. */
  function OutputEvent(output: string, category: string): (m: Message)
    ensures m.Evt? && m.ev.event == "output"
    ensures m.ev.body.Some? && m.ev.body.value.output == Some(output) && m.ev.body.value.category == Some(category)
    ensures m.ev.body.value.source.None?
  {
    Evt(Event(0, "output", Some(EventBody(Some(output), None, Some(category)))))
  }

  /** `new Event('terminated')`. */
  const TERMINATED: Message := Evt(Event(0, "terminated", None))
}
