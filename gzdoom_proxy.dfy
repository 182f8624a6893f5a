/** The GZDoom debug-adapter proxy: the request-correlation map, the
    handshake gating of launch/attach and of every other request, and the
    handling of server messages. Each handler is a step function on a
    `State` value; the `Proxy` class keeps the same state in fields and
    implements each handler with the source's loops, proved equal to the
    step function. */
module GZDoomProxy {
  import opened Wrappers
  import opened ProxyBase
  import opened Protocol
  import opened CustomSets
  import opened SourceRewrite

  /** The callback timeout of ordinary requests and of `disconnect`, in ms. */
  const DEFAULT_TIMEOUT: nat := 1000000
  const DISCONNECT_TIMEOUT: nat := 5000

  /** The constructor writes 'gzdoom' into the shared default capabilities
      object, so it is also the adapter id later filled in for clients that
      do not send one. */
  const GZDOOM_ADAPTER_ID: string := "gzdoom"

  /** An entry of `_pendingRequestsMap`. */
  datatype Pending = Pending(callback: Callback, request: Request)

  /** What the proxy is constructed with. */
  datatype Config = Config(projectPath: string, projectArchive: Option<string>, codec: UriCodec)

  /** The proxy's mutable state. The three waiter lists are the listeners
      registered on the socket's `connect` (one-shot), on `onFinishedScanning`
      and on `onSentLaunchRequest` (both persistent); `toServer` and
      `toClient` are the messages handed to `sendMessageToServer` and
      `sendMessageToClient`, in order. */
  datatype State = State(
    caps: ClientCaps,
    socketCreated: bool,
    connected: bool,
    sourcePaths: seq<string>,
    doneScanning: bool,
    launchSent: bool,
    pending: map<int, Pending>,
    connectWaiters: seq<Request>,
    scanWaiters: seq<Request>,
    launchWaiters: seq<Request>,
    toServer: seq<Message>,
    toClient: seq<Message>,
    exitCodes: seq<int>,
    errorsReported: nat)

  function Ctx(cfg: Config, s: State): SourceContext {
    SourceContext(cfg.projectPath, cfg.projectArchive, s.sourcePaths, s.caps, cfg.codec)
  }

  function Initial(): State {
    State(DEFAULT_CLIENT_CAPABILITIES.(adapterID := GZDOOM_ADAPTER_ID), false, false, [], false, false,
          map[], [], [], [], [], [], [], 0)
  }

  /** Everything but the two message logs and the pending map is the same. */
  predicate SameSetup(s: State, t: State) {
    t.caps == s.caps && t.socketCreated == s.socketCreated && t.connected == s.connected
    && t.sourcePaths == s.sourcePaths && t.doneScanning == s.doneScanning && t.launchSent == s.launchSent
    && t.connectWaiters == s.connectWaiters && t.scanWaiters == s.scanWaiters
    && t.launchWaiters == s.launchWaiters && t.exitCodes == s.exitCodes && t.errorsReported == s.errorsReported
  }

  // ---- client requests ---------------------------------------------------

  /** `sendRequestToServerWithCB`: send, then register the callback under the
      request's sequence number (replacing any entry already there). */
  function SendWithCallback(s: State, req: Request, cb: Callback): State {
    s.(toServer := s.toServer + [Req(req)], pending := s.pending[req.seqNum := Pending(cb, req)])
  }

  /** A request past the gate, handled by its command. */
  function DispatchStep(cfg: Config, s: State, req: Request): State {
    Apply(s, Route(Ctx(cfg, s), req))
  }

  /** A routed request: sent with its callback, or answered with an error. */
  function Apply(s: State, rt: Routed): State {
    match rt
    case Forward(r, cb) => SendWithCallback(s, r, cb)
    case Reject(resp) => s.(toClient := s.toClient + [Resp(resp)])
  }

  function Routes(ctx: SourceContext, reqs: seq<Request>): seq<Routed> {
    seq(|reqs|, i requires 0 <= i < |reqs| => Route(ctx, reqs[i]))
  }

  function ApplyAll(s: State, rts: seq<Routed>): State
    decreases |rts|
  {
    if rts == [] then s else Apply(ApplyAll(s, rts[..|rts| - 1]), rts[|rts| - 1])
  }

  /** Firing `onSentLaunchRequest`: the held requests are handled in the order
      they arrived. Handling them changes nothing a route depends on
      (`ApplyAllEffect`), so each is routed in the context of the start. */
  function DispatchAll(ctx: SourceContext, s: State, reqs: seq<Request>): State {
    ApplyAll(s, Routes(ctx, reqs))
  }

  /** The requests sent on, in order. */
  function ForwardedOf(rts: seq<Routed>): seq<Message>
    decreases |rts|
  {
    if rts == [] then []
    else
      var rt := rts[|rts| - 1];
      ForwardedOf(rts[..|rts| - 1]) + (if rt.Forward? then [Req(rt.request)] else [])
  }

  /** The error responses, in order. */
  function RejectedOf(rts: seq<Routed>): seq<Message>
    decreases |rts|
  {
    if rts == [] then []
    else
      var rt := rts[|rts| - 1];
      RejectedOf(rts[..|rts| - 1]) + (if rt.Reject? then [Resp(rt.response)] else [])
  }

  /** The requests routed to the server, in order. */
  function Forwarded(ctx: SourceContext, reqs: seq<Request>): seq<Message> {
    ForwardedOf(Routes(ctx, reqs))
  }

  /** The error responses for the requests that failed, in order. */
  function Rejected(ctx: SourceContext, reqs: seq<Request>): seq<Message> {
    RejectedOf(Routes(ctx, reqs))
  }

  /** The launch or attach request as sent: it carries every indexed source. */
  function LaunchRequest(cfg: Config, s: State, req: Request): Request {
    req.(projectSources := Some(ProjectSources(Ctx(cfg, s))))
  }

  /** The last part of `handleLaunchOrAttach`: send the request, mark launch
      as sent, and replay every request held until then. */
  function LaunchStep(cfg: Config, s: State, req: Request): State {
    var s1 := SendWithCallback(s, LaunchRequest(cfg, s, req), DefaultHandler).(launchSent := true);
    DispatchAll(Ctx(cfg, s1), s1, s1.launchWaiters)
  }

  /** `handleLaunchOrAttach`: wait for the connection (a request is lost when
      no socket exists yet), then for the end of the scan. */
  function LaunchOrAttachStep(cfg: Config, s: State, req: Request): State {
    if !s.connected then
      if s.socketCreated then s.(connectWaiters := s.connectWaiters + [req]) else s
    else if !s.doneScanning then s.(scanWaiters := s.scanWaiters + [req])
    else LaunchStep(cfg, s, req)
  }

  function LaunchOrAttachAll(cfg: Config, s: State, reqs: seq<Request>): State
    decreases |reqs|
  {
    if reqs == [] then s else LaunchOrAttachStep(cfg, LaunchOrAttachAll(cfg, s, reqs[..|reqs| - 1]), reqs[|reqs| - 1])
  }

  /** `handleClientRequest`: requests other than initialize, launch and
      attach wait until launch or attach has been sent. */
  function ClientRequestStep(cfg: Config, s: State, req: Request): State {
    if IsLaunchOrAttach(req.command) then LaunchOrAttachStep(cfg, s, req)
    else if req.command != "initialize" && !s.launchSent then s.(launchWaiters := s.launchWaiters + [req])
    else DispatchStep(cfg, s, req)
  }

  function ClientRequestsStep(cfg: Config, s: State, reqs: seq<Request>): State
    decreases |reqs|
  {
    if reqs == [] then s else ClientRequestStep(cfg, ClientRequestsStep(cfg, s, reqs[..|reqs| - 1]), reqs[|reqs| - 1])
  }

  /** `handleMessage`: an initialize request first sets the client
      capabilities; requests are then handled, anything else goes straight to
      the server. */
  function ClientMessageStep(cfg: Config, s: State, m: Message): State {
    var s1 := if m.Req? && m.request.command == "initialize"
              then s.(caps := SetClientCapabilities(m.request.init, GZDOOM_ADAPTER_ID)) else s;
    if m.Req? then ClientRequestStep(cfg, s1, m.request) else s1.(toServer := s1.toServer + [m])
  }

  /** `start` creates the socket. */
  function StartStep(s: State): State {
    s.(socketCreated := true)
  }

  /** The socket connects: `connected` is set and the one-shot listeners retry
      launch or attach. */
  function ConnectStep(cfg: Config, s: State): State {
    LaunchOrAttachAll(cfg, s.(connected := true, connectWaiters := []), s.connectWaiters)
  }

  /** The project scan finishes with the found paths: the index is rebuilt and
      the waiting launch or attach requests retried. */
  function ScanStep(cfg: Config, s: State, paths: seq<string>): State {
    LaunchOrAttachAll(cfg, s.(sourcePaths := FromSeq(ICaseEqual, paths), doneScanning := true), s.scanWaiters)
  }

  // ---- server messages ---------------------------------------------------

  /** `stop`: disconnected, and the client told the session terminated. */
  function StopStep(s: State): State {
    s.(connected := false, toClient := s.toClient + [TERMINATED])
  }

  /** Running a callback on a response. */
  function CallbackStep(cfg: Config, s: State, cb: Callback, r: Response): State {
    if cb == DisconnectHandler then StopStep(s)
    else
      var reply := Reply(Ctx(cfg, s), cb, r);
      if reply.Some? then s.(toClient := s.toClient + [Resp(reply.value)]) else s
  }

  /** `handleMessageFromServer`. */
  function ServerMessageStep(cfg: Config, s: State, m: Message): State {
    match m
    case Resp(r) =>
      if r.requestSeq in s.pending then
        CallbackStep(cfg, s.(pending := s.pending - {r.requestSeq}), s.pending[r.requestSeq].callback, r)
      else s.(toClient := s.toClient + [m])
    case Evt(e) =>
      var out := EventReply(Ctx(cfg, s), e);
      if out.Some? then s.(toClient := s.toClient + [Evt(out.value)]) else s
    case _ => s.(toClient := s.toClient + [m])
  }

  /** A request's timer expires: if its entry is still pending, it is removed
      and the callback runs on a 'timeout' failure. */
  function TimeoutStep(cfg: Config, s: State, req: Request): State {
    if req.seqNum in s.pending then
      CallbackStep(cfg, s.(pending := s.pending - {req.seqNum}), s.pending[req.seqNum].callback, NewResponse(req, Some("timeout")))
    else s
  }

  /** The socket closes or fails: the client is sent an output event, an
      exit code (and possibly an error) is emitted, and the proxy stops. */
  function SocketEndStep(s: State, end: SocketEnd): State {
    var d := OnSocketEnd(s.connected, end);
    StopStep(s.(toClient := s.toClient + [OutputEvent(d.output, d.category)],
                exitCodes := s.exitCodes + [d.exitCode],
                errorsReported := s.errorsReported + if d.reportsError then 1 else 0))
  }

  // ---- properties --------------------------------------------------------

  /** Replaying routed requests sends the forwarded ones to the server and
      the error responses to the client, each in arrival order, and changes
      nothing else but the pending map. */
  lemma {:induction false} ApplyAllEffect(s: State, rts: seq<Routed>)
    ensures var t := ApplyAll(s, rts);
      SameSetup(s, t)
      && t.toServer == s.toServer + ForwardedOf(rts)
      && t.toClient == s.toClient + RejectedOf(rts)
    decreases |rts|
  {
    if rts != [] {
      var init, last := rts[..|rts| - 1], rts[|rts| - 1];
      ApplyAllEffect(s, init);
      var mid := ApplyAll(s, init);
      ApplyEffect(mid, last);
      assert ApplyAll(s, rts) == Apply(mid, last);
      assert ForwardedOf(rts) == ForwardedOf(init) + (if last.Forward? then [Req(last.request)] else []);
      assert RejectedOf(rts) == RejectedOf(init) + (if last.Reject? then [Resp(last.response)] else []);
    }
  }

  /** Dispatching the next held request extends the replay by its route. */
  lemma {:induction false} ReplayStep(cfg: Config, s: State, held: seq<Request>, i: nat, cur: State)
    requires i < |held| && cur == ApplyAll(s, Routes(Ctx(cfg, s), held)[..i])
    ensures DispatchStep(cfg, cur, held[i]) == ApplyAll(s, Routes(Ctx(cfg, s), held)[..i + 1])
  {
    var rts := Routes(Ctx(cfg, s), held);
    ApplyAllEffect(s, rts[..i]);
    assert Ctx(cfg, cur) == Ctx(cfg, s);
    assert rts[..i + 1][..i] == rts[..i];
  }

  /** One routed request adds its forwarded request or its error response to
      the matching log. */
  lemma {:induction false} ApplyEffect(s: State, rt: Routed)
    ensures var t := Apply(s, rt);
      SameSetup(s, t)
      && t.toServer == s.toServer + (if rt.Forward? then [Req(rt.request)] else [])
      && t.toClient == s.toClient + (if rt.Reject? then [Resp(rt.response)] else [])
  {
  }

  /** Before launch or attach is sent, requests other than initialize are
      only queued, in arrival order; nothing reaches the server. */
  lemma {:induction false} HeldUntilLaunch(cfg: Config, s: State, reqs: seq<Request>)
    requires !s.launchSent
    requires forall i :: 0 <= i < |reqs| ==> !IsLaunchOrAttach(reqs[i].command) && reqs[i].command != "initialize"
    ensures ClientRequestsStep(cfg, s, reqs) == s.(launchWaiters := s.launchWaiters + reqs)
    decreases |reqs|
  {
    if reqs != [] {
      var init := reqs[..|reqs| - 1];
      HeldUntilLaunch(cfg, s, init);
      assert s.launchWaiters + init + [reqs[|reqs| - 1]] == s.launchWaiters + reqs;
    }
  }

  /** Launch or attach, once connected and scanned, is sent with the indexed
      sources and followed by every held request in arrival order. The held
      requests stay registered. */
  lemma {:induction false} LaunchReplaysHeld(cfg: Config, s: State, req: Request)
    requires IsLaunchOrAttach(req.command) && s.connected && s.doneScanning
    ensures var t := ClientRequestStep(cfg, s, req);
      t.launchSent && t.launchWaiters == s.launchWaiters
      && t.toServer == s.toServer + [Req(LaunchRequest(cfg, s, req))] + Forwarded(Ctx(cfg, s), s.launchWaiters)
      && t.toClient == s.toClient + Rejected(Ctx(cfg, s), s.launchWaiters)
  {
    LaunchStepEffect(cfg, s, req);
  }

  lemma {:induction false} LaunchStepEffect(cfg: Config, s: State, req: Request)
    ensures var t := LaunchStep(cfg, s, req);
      t.launchSent && t.launchWaiters == s.launchWaiters && Ctx(cfg, t) == Ctx(cfg, s)
      && t.toServer == s.toServer + [Req(LaunchRequest(cfg, s, req))] + Forwarded(Ctx(cfg, s), s.launchWaiters)
      && t.toClient == s.toClient + Rejected(Ctx(cfg, s), s.launchWaiters)
  {
    var s1 := SendWithCallback(s, LaunchRequest(cfg, s, req), DefaultHandler).(launchSent := true);
    ApplyAllEffect(s1, Routes(Ctx(cfg, s1), s1.launchWaiters));
    assert Ctx(cfg, s1) == Ctx(cfg, s);
  }

  /** Launch or attach before the connection (or before the scan) sends
      nothing and waits; without a socket it is dropped. */
  lemma {:induction false} LaunchWaits(cfg: Config, s: State, req: Request)
    requires IsLaunchOrAttach(req.command) && !(s.connected && s.doneScanning)
    ensures var t := ClientRequestStep(cfg, s, req);
      t.toServer == s.toServer && t.toClient == s.toClient && t.pending == s.pending && !t.launchSent == !s.launchSent
      && t.connectWaiters == (if !s.connected && s.socketCreated then s.connectWaiters + [req] else s.connectWaiters)
      && t.scanWaiters == (if s.connected then s.scanWaiters + [req] else s.scanWaiters)
  {
  }

  lemma {:induction false} RetryOne(cfg: Config, s: State, req: Request)
    ensures LaunchOrAttachAll(cfg, s, [req]) == LaunchOrAttachStep(cfg, s, req)
  {
    assert [req][..0] == [];
  }

  /** A fresh, started proxy that receives launch before the connection and
      the scan sends it exactly once, with the scanned sources, whichever of
      the two finishes first. */
  lemma {:induction false} HandshakeInEitherOrder(cfg: Config, req: Request, paths: seq<string>)
    requires IsLaunchOrAttach(req.command)
    ensures var s0 := ClientRequestStep(cfg, StartStep(Initial()), req);
      var a := ScanStep(cfg, ConnectStep(cfg, s0), paths);
      var b := ConnectStep(cfg, ScanStep(cfg, s0, paths));
      a.toServer == b.toServer == [Req(LaunchRequest(cfg, a, req))]
      && a.launchSent && b.launchSent && a.toClient == b.toClient == []
  {
    var st := StartStep(Initial());
    var s0 := ClientRequestStep(cfg, st, req);
    assert s0 == st.(connectWaiters := [req]);
    var found := FromSeq(ICaseEqual, paths);
    // connection first, then the scan
    var c0 := s0.(connected := true, connectWaiters := []);
    RetryOne(cfg, c0, req);
    var c := ConnectStep(cfg, s0);
    assert c == c0.(scanWaiters := [req]);
    var sa := c.(sourcePaths := found, doneScanning := true);
    RetryOne(cfg, sa, req);
    var a := ScanStep(cfg, c, paths);
    assert a == LaunchStep(cfg, sa, req);
    LaunchStepEffect(cfg, sa, req);
    // the scan first, then the connection
    var sc := ScanStep(cfg, s0, paths);
    assert sc == s0.(sourcePaths := found, doneScanning := true);
    var sb := sc.(connected := true, connectWaiters := []);
    RetryOne(cfg, sb, req);
    var b := ConnectStep(cfg, sc);
    assert b == LaunchStep(cfg, sb, req);
    LaunchStepEffect(cfg, sb, req);
    assert Ctx(cfg, sa) == Ctx(cfg, sb);
  }

  /** A response runs its callback once: afterwards the entry is gone, the
      timer finds nothing to do, and a repeated response is forwarded as it
      is. */
  lemma {:induction false} ResponseRunsCallbackOnce(cfg: Config, s: State, r: Response, req: Request)
    requires r.requestSeq in s.pending && req.seqNum == r.requestSeq
    ensures var t := ServerMessageStep(cfg, s, Resp(r));
      r.requestSeq !in t.pending
      && t.pending == s.pending - {r.requestSeq}
      && TimeoutStep(cfg, t, req) == t
      && ServerMessageStep(cfg, t, Resp(r)) == t.(toClient := t.toClient + [Resp(r)])
  {
  }

  /** A timeout runs the callback once: a response arriving later has no entry
      and is forwarded unchanged. */
  lemma {:induction false} TimeoutRunsCallbackOnce(cfg: Config, s: State, r: Response, req: Request)
    requires req.seqNum in s.pending && r.requestSeq == req.seqNum
    ensures var t := TimeoutStep(cfg, s, req);
      t.pending == s.pending - {req.seqNum}
      && ServerMessageStep(cfg, t, Resp(r)) == t.(toClient := t.toClient + [Resp(r)])
      && TimeoutStep(cfg, t, req) == t
  {
  }

  /** A response without a pending entry is forwarded unchanged. */
  lemma {:induction false} UnmatchedResponseForwarded(cfg: Config, s: State, r: Response)
    requires r.requestSeq !in s.pending
    ensures ServerMessageStep(cfg, s, Resp(r)) == s.(toClient := s.toClient + [Resp(r)])
  {
  }

  /** The response to `loadedSources` never reaches the client. */
  lemma {:induction false} LoadedSourcesNeverForwarded(cfg: Config, s: State, r: Response)
    requires r.requestSeq in s.pending && s.pending[r.requestSeq].callback == LoadedSourcesHandler
    ensures ServerMessageStep(cfg, s, Resp(r)) == s.(pending := s.pending - {r.requestSeq})
  {
  }

  /** The end of the socket tells the client why, emits the exit code
      `OnSocketEnd` decides, then stops: the client is told the session
      terminated. A closed connection that was up exits with 0 and reports
      no error. */
  lemma {:induction false} SocketEndStops(s: State, end: SocketEnd)
    ensures var t := SocketEndStep(s, end);
      var d := OnSocketEnd(s.connected, end);
      !t.connected && t.toClient == s.toClient + [OutputEvent(d.output, d.category), TERMINATED]
      && t.exitCodes == s.exitCodes + [d.exitCode]
      && (s.connected && end.Closed? ==>
            t.toClient[|s.toClient|] == OutputEvent("Connection closed.", "console")
            && t.exitCodes[|s.exitCodes|] == 0 && t.errorsReported == s.errorsReported)
  {
  }

  // ---- the class ---------------------------------------------------------

  class Proxy {
    const projectPath: string
    const projectArchive: Option<string>
    const codec: UriCodec
    var caps: ClientCaps
    var socketCreated: bool
    var connected: bool
    var sourcePaths: seq<string>
    var doneScanning: bool
    var launchSent: bool
    var pending: map<int, Pending>
    var connectWaiters: seq<Request>
    var scanWaiters: seq<Request>
    var launchWaiters: seq<Request>
    var toServer: seq<Message>
    var toClient: seq<Message>
    var exitCodes: seq<int>
    var errorsReported: nat

    function Cfg(): Config {
      Config(projectPath, projectArchive, codec)
    }

    function Snapshot(): State
      reads this
    {
      State(caps, socketCreated, connected, sourcePaths, doneScanning, launchSent, pending,
                        connectWaiters, scanWaiters, launchWaiters, toServer, toClient, exitCodes, errorsReported)
    }

    /** The scan of the project directory starts here and ends with
        `ScanFinished`. */
    constructor(projectPath: string, projectArchive: Option<string>, codec: UriCodec)
      ensures this.projectPath == projectPath && this.projectArchive == projectArchive
      ensures Snapshot() == Initial()
    {
      this.projectPath := projectPath;
      this.projectArchive := projectArchive;
      this.codec := codec;
      caps := DEFAULT_CLIENT_CAPABILITIES.(adapterID := GZDOOM_ADAPTER_ID);
      socketCreated := false;
      connected := false;
      sourcePaths := [];
      doneScanning := false;
      launchSent := false;
      pending := map[];
      connectWaiters := [];
      scanWaiters := [];
      launchWaiters := [];
      toServer := [];
      toClient := [];
      exitCodes := [];
      errorsReported := 0;
    }

    method Start()
      modifies this
      ensures Snapshot() == StartStep(old(Snapshot()))
    {
      socketCreated := true;
    }

    method SendRequestToServerWithCB(req: Request, cb: Callback)
      modifies this
      ensures Snapshot() == SendWithCallback(old(Snapshot()), req, cb)
    {
      toServer := toServer + [Req(req)];
      pending := pending[req.seqNum := Pending(cb, req)];
    }

    method Dispatch(req: Request)
      modifies this
      ensures Snapshot() == DispatchStep(Cfg(), old(Snapshot()), req)
    {
      var rt := Route(Ctx(Cfg(), Snapshot()), req);
      match rt
      case Forward(r, cb) => SendRequestToServerWithCB(r, cb);
      case Reject(resp) => toClient := toClient + [Resp(resp)];
    }

    method SendLaunch(req: Request)
      modifies this
      ensures Snapshot() == LaunchStep(Cfg(), old(Snapshot()), req)
    {
      SendRequestToServerWithCB(LaunchRequest(Cfg(), Snapshot(), req), DefaultHandler);
      launchSent := true;
      var held := launchWaiters;
      ghost var s1 := Snapshot();
      ghost var rts := Routes(Ctx(Cfg(), s1), held);
      for i := 0 to |held|
        invariant Snapshot() == ApplyAll(s1, rts[..i])
      {
        ReplayStep(Cfg(), s1, held, i, Snapshot());
        Dispatch(held[i]);
      }
      assert rts[..|held|] == rts;
    }

    method LaunchOrAttach(req: Request)
      modifies this
      ensures Snapshot() == LaunchOrAttachStep(Cfg(), old(Snapshot()), req)
    {
      if !connected {
        if socketCreated {
          connectWaiters := connectWaiters + [req];
        }
        return;
      }
      if !doneScanning {
        scanWaiters := scanWaiters + [req];
        return;
      }
      SendLaunch(req);
    }

    method HandleClientRequest(req: Request)
      modifies this
      ensures Snapshot() == ClientRequestStep(Cfg(), old(Snapshot()), req)
    {
      if IsLaunchOrAttach(req.command) {
        LaunchOrAttach(req);
      } else if req.command != "initialize" && !launchSent {
        launchWaiters := launchWaiters + [req];
      } else {
        Dispatch(req);
      }
    }

    method HandleMessage(m: Message)
      modifies this
      ensures Snapshot() == ClientMessageStep(Cfg(), old(Snapshot()), m)
    {
      if m.Req? && m.request.command == "initialize" {
        caps := SetClientCapabilities(m.request.init, GZDOOM_ADAPTER_ID);
      }
      if m.Req? {
        HandleClientRequest(m.request);
      } else {
        toServer := toServer + [m];
      }
    }

    method RetryLaunches(reqs: seq<Request>)
      modifies this
      ensures Snapshot() == LaunchOrAttachAll(Cfg(), old(Snapshot()), reqs)
    {
      ghost var s0 := Snapshot();
      for i := 0 to |reqs|
        invariant Snapshot() == LaunchOrAttachAll(Cfg(), s0, reqs[..i])
      {
        assert reqs[..i + 1][..i] == reqs[..i];
        LaunchOrAttach(reqs[i]);
      }
      assert reqs[..|reqs|] == reqs;
    }

    method OnConnect()
      modifies this
      ensures Snapshot() == ConnectStep(Cfg(), old(Snapshot()))
    {
      connected := true;
      var waiting := connectWaiters;
      connectWaiters := [];
      RetryLaunches(waiting);
    }

    method ScanFinished(paths: seq<string>)
      modifies this
      ensures Snapshot() == ScanStep(Cfg(), old(Snapshot()), paths)
    {
      var index := new CustomSet<string>(Some(ICaseEqual), paths);
      sourcePaths := index.items;
      doneScanning := true;
      RetryLaunches(scanWaiters);
    }

    method Stop()
      modifies this
      ensures Snapshot() == StopStep(old(Snapshot()))
    {
      connected := false;
      toClient := toClient + [TERMINATED];
    }

    method RunCallback(cb: Callback, r: Response)
      modifies this
      ensures Snapshot() == CallbackStep(Cfg(), old(Snapshot()), cb, r)
    {
      if cb == DisconnectHandler {
        Stop();
      } else {
        var reply := Reply(Ctx(Cfg(), Snapshot()), cb, r);
        if reply.Some? {
          toClient := toClient + [Resp(reply.value)];
        }
      }
    }

    method HandleMessageFromServer(m: Message)
      modifies this
      ensures Snapshot() == ServerMessageStep(Cfg(), old(Snapshot()), m)
    {
      match m
      case Resp(r) =>
        if r.requestSeq in pending {
          var p := pending[r.requestSeq];
          pending := pending - {r.requestSeq};
          RunCallback(p.callback, r);
        } else {
          toClient := toClient + [m];
        }
      case Evt(e) =>
        var out := EventReply(Ctx(Cfg(), Snapshot()), e);
        if out.Some? {
          toClient := toClient + [Evt(out.value)];
        }
      case _ =>
        toClient := toClient + [m];
    }

    method OnTimeout(req: Request)
      modifies this
      ensures Snapshot() == TimeoutStep(Cfg(), old(Snapshot()), req)
    {
      if req.seqNum in pending {
        var p := pending[req.seqNum];
        pending := pending - {req.seqNum};
        RunCallback(p.callback, NewResponse(req, Some("timeout")));
      }
    }

    method OnSocketEnd(end: SocketEnd)
      modifies this
      ensures Snapshot() == SocketEndStep(old(Snapshot()), end)
    {
      var d := ProxyBase.OnSocketEnd(connected, end);
      toClient := toClient + [OutputEvent(d.output, d.category)];
      exitCodes := exitCodes + [d.exitCode];
      if d.reportsError {
        errorsReported := errorsReported + 1;
      }
      Stop();
    }
  }
}
