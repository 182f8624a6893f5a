# A verified model of the ZScript VS Code extension's core

The extension lets VS Code debug ZScript running inside the GZDoom engine and
edit GZDoom's file formats. This project models its core in Dafny and proves
properties of the model. The core has three parts.

**The debug-adapter proxy.** VS Code speaks the Debug Adapter Protocol to the
proxy, and the proxy relays each message to the GZDoom debug server over a
socket. The model covers the following:

- The Content-Length framing: the `handleData` deframer as a class with its
  `rawData`/`contentLength` state, and the sender with its pre-connect queue.
- Line, column and path conversions.
- Client-capability defaulting.
- `{name}` placeholder formatting and the log-level order.
- The exit-code decision on socket close or error.
- The comparator-based `CustomSet`/`ICaseSet`.
- The request-correlation map, where a response and a timeout race and at most one runs the callback.
- The handshake gating of launch, attach and held requests.
- The rewriting of `Source` paths in both directions against the project root and the scanned files.

**The launcher and session set-up.** This covers the following:

- The quote-aware tokeniser that recovers a running game's command line.
- Launch-argument assembly.
- The kill-sweep loop, bounded to five sweeps.
- The polling waits for the game and for the debug port.
- The outcome of `runLauncher`.
- `resolveDebugConfiguration`, project and archive normalisation, and what a session does for each launch outcome.
- The listener registry `Emitter`.

Processes, ports, clocks and cancellation are read from an oracle. Each poll
consumes the oracle's next observation.

**GZDoom file formats.** This covers the following:

- The WAD container: the header, lump bodies and the 16-byte dictionary entries. Its `Reader` and `Writer` are classes over byte sequences.
- Lump-name normalisation and the lump factory.
- The UDMF `TEXTMAP` parser and its serialiser, over a token list.
- The `wad:` file system: URI parsing, the WAD cache, and in-place edits of the lump list.
- DeHackEd folding ranges.
- The path predicates of `GZDoomGame.ts`.

Text helpers (`text.dfy`) model the JavaScript string operations the source
uses: whitespace trimming, ASCII case mapping, `indexOf`/`lastIndexOf`,
decimal printing and parsing, and UTF-8 length. Paths (`paths.dfy`) are
POSIX paths: a list of segments plus an absolute flag. They give `join`,
`relative` and `basename` their segment meaning.

The two directions of each format are tied by round-trip lemmas:

- a framed message is deframed as itself (`Transport.RoundTrip`);
- a saved WAD loads back as its lumps (`Wads.SavedLoads`, `Wads.LoadSaved`);
- a serialised TEXTMAP parses back (`Textmaps.ParseSerialized`);
- a source sent to the debugger and reported back returns with its full path (`SourceRewrite.SourceRoundTrip`).

Imperative code keeps its form. Classes update their fields, loops carry
invariants, and each method is proved against a specification function.

## Model

| member | source | states |
|---|---|---|
| Game.SomeEndsWith | src/GZDoomGame.ts:20-26 | `Array.prototype.some` over suffixes: true exactly when some listed suffix ends the string |
| Game.BuiltinNames | src/GZDoomGame.ts:12-21 | the built-in archive names, one per entry of `BUILTIN_PK3_FILES`, each lower-cased |
| Game.WadSuffixClosed | src/GZDoomGame.ts:24-26 | a path recognised by `isWad` stays recognised with anything put in front of it |
| Game.BuiltinSuffixClosed | src/GZDoomGame.ts:20-22 | a path recognised by `isBuiltinPK3File` stays recognised with anything put in front of it |
| Game.BuiltinNamesNonEmpty | src/GZDoomGame.ts:12-18 | no built-in archive name is empty, so the empty path is never a built-in archive |
| Game.BuiltinIgnoresCase | src/GZDoomGame.ts:20-22 | `isBuiltinPK3File` gives the same answer for a path and its upper-cased form |
| Game.LowerUpper | src/doom-wad/Lumps/LumpFactory.ts:17 | lowering a name that was raised gives the same as lowering it directly |
| Emitters.Without | src/IDEInterface.ts:185 | `filter(l => l !== listener)`: the result holds exactly the other elements, never the removed one, and is no longer |
| Emitters.WithoutAppend | src/IDEInterface.ts:185 | filtering distributes over concatenation |
| Emitters.WithoutAbsent | src/IDEInterface.ts:185 | filtering out a listener that is not registered changes nothing |
| Emitters.Subscribed | src/IDEInterface.ts:176-180 | subscribing through an `event` appends the listener to the persistent list, through a `once` to the once list, and the receiver only when one is given; nothing else changes |
| Emitters.Unsubscribed | src/IDEInterface.ts:182-189 | disposing a subscription removes that listener from its own list only; every other listener stays where it was |
| Emitters.Calls | src/IDEInterface.ts:223-236 | one call per listener, in order, with the receiver at the same index when there is one, and whether it threw |
| Emitters.FireCalls | src/IDEInterface.ts:222-236 | `fire` calls the persistent listeners first, then the once listeners, each in registration order |
| Emitters.Fired | src/IDEInterface.ts:237-238 | after `fire` the once listeners and their receivers are gone; everything else is kept |
| Emitters.FireTwice | src/IDEInterface.ts:222-239 | a second `fire` repeats exactly the persistent calls of the first |
| Emitters.FiredHasListeners | src/IDEInterface.ts:237-243 | after `fire`, `hasListener` holds exactly when a persistent listener is registered |
| Emitters.SubscribeThenDispose | src/IDEInterface.ts:176-189 | subscribing a new listener and disposing it gives back the registry it started from |
| Emitters.DisposeKeepsOrder | src/IDEInterface.ts:185 | disposing a listener keeps the others in their order |
| Emitters.ReceiversMisaligned | src/IDEInterface.ts:177-180 | a listener subscribed without a receiver shifts the receivers: the next listener's receiver is called with the wrong listener and the last gets none |
| Emitters.ReceiversAligned | src/IDEInterface.ts:177-180 | while every listener has a receiver, a new listener with a receiver is called with its own receiver |
| Emitters.Emitter.constructor | src/IDEInterface.ts:168-173 | a new emitter has no events, listeners or receivers |
| Emitters.Emitter.Event | src/IDEInterface.ts:175-196 | the `event` getter records one more persistent event and changes nothing else |
| Emitters.Emitter.Once | src/IDEInterface.ts:198-219 | the `once` getter records one more once-only event and changes nothing else |
| Emitters.Emitter.Subscribe | src/IDEInterface.ts:176-192 | calling an event registers the listener as `Subscribed` states |
| Emitters.Emitter.DisposeSubscription | src/IDEInterface.ts:183-189 | `dispose` on a subscription changes the state as `Unsubscribed` states |
| Emitters.Emitter.Fire | src/IDEInterface.ts:222-239 | the calls made are `FireCalls` of the state before, and the state after is `Fired` of it |
| Emitters.Emitter.HasListener | src/IDEInterface.ts:241-243 | true exactly when a persistent or a once listener is registered |
| Emitters.Emitter.Dispose | src/IDEInterface.ts:245-251 | every list is emptied |
| Emitters.DisposedFiresNothing | src/IDEInterface.ts:245-251 | a disposed emitter calls no listener and reports none |
| Emitters.PushIfGiven | src/IDEInterface.ts:177-180 | the receiver list grows by the receiver exactly when one is given, and is otherwise unchanged |
| CustomSets.FindIndex | src/GZDoomDebugAdapterProxy.ts:57-66 | the first stored item the comparator matches with the query, or -1 exactly when none matches |
| CustomSets.Inserted | src/GZDoomDebugAdapterProxy.ts:50-55 | `add` appends the item only when no stored item matches it; a set without duplicates stays without duplicates |
| CustomSets.FromSeq | src/GZDoomDebugAdapterProxy.ts:41-47 | the items `add`ed one by one from the iterable hold no two matching items and are no more than the iterable |
| CustomSets.Removed | src/GZDoomDebugAdapterProxy.ts:65-72 | `delete` splices out exactly the first matching item, or leaves the items when nothing matches; no duplicates appear |
| CustomSets.DeleteThenAdd | src/GZDoomDebugAdapterProxy.ts:50-72 | deleting a stored item and adding it back moves it to the end |
| CustomSets.StoredItemFound | src/GZDoomDebugAdapterProxy.ts:57-63 | in a set without duplicates under an equivalence, a stored item is found at its own position |
| CustomSets.ICaseGetStored | src/GZDoomDebugAdapterProxy.ts:105-109 | the item an `ICaseSet` finds for a query differs from it only in case |
| CustomSets.ICaseIsEquivalence | src/GZDoomDebugAdapterProxy.ts:105-109 | case-insensitive comparison is reflexive, symmetric and transitive |
| CustomSets.ICaseAddOtherCase | src/GZDoomDebugAdapterProxy.ts:50-55 | adding a path already present in another case leaves an `ICaseSet` unchanged |
| CustomSets.CustomSet.constructor | src/GZDoomDebugAdapterProxy.ts:41-47 | the comparator given, or strict equality when none is, and the iterable's items added in order without duplicates |
| CustomSets.CustomSet.Get | src/GZDoomDebugAdapterProxy.ts:61-63 | `get` finds a stored item exactly when `has` holds, and it is the first stored item matching the query |
| CustomSets.CustomSet.Size | src/GZDoomDebugAdapterProxy.ts:74-76 | the number of stored items |
| CustomSets.CustomSet.Add | src/GZDoomDebugAdapterProxy.ts:50-55 | the items become `Inserted` of the old items, and the set stays free of duplicates |
| CustomSets.CustomSet.Delete | src/GZDoomDebugAdapterProxy.ts:65-72 | returns whether a matching item was stored, and the items become `Removed` of the old items |
| CustomSets.CustomSet.Clear | src/GZDoomDebugAdapterProxy.ts:78-80 | no items remain |
| Protocol.NewResponse | src/GZDoomDebugAdapterProxy.ts:279 | `new Response(request, message)`: answers the request's sequence number and command, succeeds exactly when no non-empty message is given, and otherwise carries that message |
| Protocol.OutputEvent | src/DebugAdapterProxy.ts:502-509 | `emitOutputEvent`: an 'output' event whose body holds the text and the category and no source |
| ProxyBase.Base | src/DebugAdapterProxy.ts:673-696 | the offset of a numbering that starts at 1 or at 0 is 1 or 0 |
| ProxyBase.SetClientCapabilities | src/DebugAdapterProxy.ts:637-661 | each capability the client gives with the right type is kept, a missing one takes its default; paths are URIs exactly when the format is 'uri'; without `supportsVariableType` columns start at 1 |
| ProxyBase.ClientLineToDebugger | src/DebugAdapterProxy.ts:673-678 | the line shifted by the difference between the debugger's and the client's starting line |
| ProxyBase.DebuggerLineToClient | src/DebugAdapterProxy.ts:679-684 | the line shifted back by that difference |
| ProxyBase.ClientColumnToDebugger | src/DebugAdapterProxy.ts:685-690 | the column shifted by the difference between the debugger's and the client's starting column |
| ProxyBase.DebuggerColumnToClient | src/DebugAdapterProxy.ts:691-696 | the column shifted back by that difference |
| ProxyBase.ConversionsInverse | src/DebugAdapterProxy.ts:673-696 | converting a line or column to the debugger and back, or back and forth, gives it unchanged |
| ProxyBase.SameBaseIsIdentity | src/DebugAdapterProxy.ts:673-696 | when client and debugger count from the same base, lines and columns pass unchanged |
| ProxyBase.ClientPathToDebugger | src/DebugAdapterProxy.ts:698-707 | the path unchanged when both sides agree on URIs; otherwise converted to the debugger's form |
| ProxyBase.DebuggerPathToClient | src/DebugAdapterProxy.ts:709-718 | the path unchanged when both sides agree on URIs; otherwise converted to the client's form |
| ProxyBase.PathConversionsInverse | src/DebugAdapterProxy.ts:698-718 | when `uri2path` and `path2uri` undo each other on a path, converting it there and back gives it unchanged |
| ProxyBase.BraceEnd | src/DebugAdapterProxy.ts:663 | the position of the first `}`, or -1 exactly when there is none |
| ProxyBase.PublicArgs | src/DebugAdapterProxy.ts:666 | exactly the arguments whose names start with '_', with their values |
| ProxyBase.FormatPIIPlain | src/DebugAdapterProxy.ts:663-671 | a format without `{` is returned unchanged |
| ProxyBase.FormatPIINoArgs | src/DebugAdapterProxy.ts:663-671 | with no arguments every placeholder is kept as written |
| ProxyBase.FormatPIIExcluding | src/DebugAdapterProxy.ts:663-671 | excluding personal data is formatting with only the arguments whose names start with '_' |
| ProxyBase.FormatPIISingle | src/DebugAdapterProxy.ts:663-671 | a lone placeholder becomes its argument when that is given and non-empty, and stays as written otherwise |
| ProxyBase.LevelToInt | src/DebugAdapterProxy.ts:235-256 | every level maps to a multiple of ten up to 60, and an unknown level to 0 |
| ProxyBase.LevelRank | src/DebugAdapterProxy.ts:234-253 | the levels silent, trace, debug, info, warn, error, fatal map to 0, 10, ..., 60 in that order |
| ProxyBase.LevelOrder | src/DebugAdapterProxy.ts:257-260 | a known level is logged exactly when it is at or above the threshold in that order |
| ProxyBase.DefaultThreshold | src/DebugAdapterProxy.ts:232 | at the default threshold 'info', exactly info, warn, error and fatal are logged (also lines 257-260) |
| ProxyBase.OnSocketEnd | src/DebugAdapterProxy.ts:467-489 | a close after connecting, or an ECONNRESET after connecting, ends quietly with exit code 0; any other close or error reports an error, with -1 for a close, otherwise the errno or 1, and an 'important' message for an error |
| Transport.Latin1 | src/DebugAdapterProxy.ts:617 | one character per header byte, with that byte's code |
| Transport.SplitLines | src/DebugAdapterProxy.ts:59 | `split(/\r?\n/)`: at least one piece, none holding a line feed, and the whole text when it has none (also line 618) |
| Transport.SkipSpaces | src/DebugAdapterProxy.ts:60 | the text after the leading spaces, which were all spaces |
| Transport.SplitField | src/DebugAdapterProxy.ts:60 | `split(/: */)`'s first two pieces: the name before the first colon, and a value exactly when the line has a colon, which holds no colon itself (also line 620) |
| Transport.HeaderEnd | src/DebugAdapterProxy.ts:615 | the position of the first blank line `\r\n\r\n` from a position, or -1 |
| Transport.HeaderEndIsIndexOf | src/DebugAdapterProxy.ts:615 | that position is `indexOf(TWO_CRLF)` |
| Transport.Deframer.constructor | src/DebugAdapterProxy.ts:578-584 | nothing buffered, no length read, no message received |
| Transport.Deframer.Connect | src/DebugAdapterProxy.ts:578-584 | `connect` empties the buffer and forgets the length |
| Transport.Deframer.ReadHeader | src/DebugAdapterProxy.ts:617-624 | the length becomes the header's last `Content-Length` value, or stays as it was when there is none |
| Transport.Deframer.HandleData | src/DebugAdapterProxy.ts:586-631 | the messages received are those `Drain` finds in the buffer plus the chunk, and the state left is what `Drain` leaves |
| Transport.HeaderText | src/DebugAdapterProxy.ts:574 | the `Content-Length: <n>` header is ASCII |
| Transport.EncodeIsFrame | src/DebugAdapterProxy.ts:573-574 | the text written for a message is the frame of its UTF-8 body |
| Transport.Latin1OfAscii | src/DebugAdapterProxy.ts:617 | an ASCII header reads back as written |
| Transport.NumberOfDigits | src/DebugAdapterProxy.ts:622 | `Number` of a printed length gives the length back |
| Transport.FieldOfHeader | src/DebugAdapterProxy.ts:574 | the header written splits into the name `Content-Length` and the printed length (also lines 620-621) |
| Transport.HeaderOfFrame | src/DebugAdapterProxy.ts:574 | reading the header written for a body gives the body's length (also lines 617-624) |
| Transport.DrainSettles | src/DebugAdapterProxy.ts:590-630 | the loop stops with no complete message or header left, holding a suffix of its input |
| Transport.SettledDrain | src/DebugAdapterProxy.ts:590-630 | with nothing complete buffered the loop does nothing |
| Transport.DrainFrame | src/DebugAdapterProxy.ts:590-630 | one framed body at the front of the buffer is delivered first, then the rest is handled as alone |
| Transport.DrainFrames | src/DebugAdapterProxy.ts:586-631 | framed bodies back to back are delivered in order, those that decode |
| Transport.DrainAppend | src/DebugAdapterProxy.ts:586-631 | handling more data after a drain is the same as draining everything at once |
| Transport.FeedIsDrain | src/DebugAdapterProxy.ts:586-631 | feeding chunks one by one delivers what draining their concatenation does |
| Transport.RoundTrip | src/DebugAdapterProxy.ts:573-574 | however the frames of some bodies are cut into chunks, the receiver delivers exactly the decodable bodies, in order, and ends empty (also lines 586-631) |
| Transport.DecodedBodies | src/DebugAdapterProxy.ts:596 | with a parser that accepts everything, every non-empty body is delivered |
| Transport.EmptyFrameSkipped | src/DebugAdapterProxy.ts:596 | an empty body delivers nothing |
| Transport.InvalidBodyDropped | src/DebugAdapterProxy.ts:600-610 | a body that is not valid JSON is logged and dropped; the rest is handled as alone |
| Transport.LastLengthWins | src/DebugAdapterProxy.ts:619-623 | of several `Content-Length` lines the last one sets the length |
| Transport.NoLengthLine | src/DebugAdapterProxy.ts:619-623 | a header without a `Content-Length` line leaves the length as it was |
| Transport.HeaderWithoutLength | src/DebugAdapterProxy.ts:614-627 | a header without a length is skipped, and the data after it is read as a new header |
| Transport.Bodies | src/DebugAdapterProxy.ts:573 | each message's body is the UTF-8 of its JSON text |
| Transport.EncodeAllIsFrames | src/DebugAdapterProxy.ts:572-575 | the text written for several messages is the frames of their bodies back to back |
| Transport.ServerChannel.constructor | src/DebugAdapterProxy.ts:558-576 | no output stream, no socket, no pending flush, nothing queued or written |
| Transport.ServerChannel.Start | src/DebugAdapterProxy.ts:462 | `start` opens the socket and changes nothing else |
| Transport.ServerChannel.Send | src/DebugAdapterProxy.ts:558-576 | without an output stream the message is queued and the first queued message arranges a flush on connect; with one it is written |
| Transport.ServerChannel.ProcessQueue | src/DebugAdapterProxy.ts:548-556 | every queued message is written, in order, and the queue is emptied |
| Transport.ServerChannel.OnConnect | src/DebugAdapterProxy.ts:462-466 | connecting opens the output stream and flushes the queue when a flush was arranged (also lines 566-568, line 579) |
| Transport.LinesOfHeader | src/DebugAdapterProxy.ts:618 | the header the sender writes splits into exactly one line, itself |
| GZDoomProxy.ApplyAllEffect | src/GZDoomDebugAdapterProxy.ts:353-389 | replaying held requests sends the forwarded ones to the debugger and the rejected ones' responses to the client, in order, and changes no set-up |
| GZDoomProxy.ApplyEffect | src/GZDoomDebugAdapterProxy.ts:353-389 | one routed request sends exactly one message, to the debugger or to the client |
| GZDoomProxy.ReplayStep | src/GZDoomDebugAdapterProxy.ts:361-365 | one held request replayed is one more routed request applied |
| GZDoomProxy.HeldUntilLaunch | src/GZDoomDebugAdapterProxy.ts:361-366 | before the launch is sent, every request other than launch, attach and initialize is held, in order, and nothing is sent |
| GZDoomProxy.LaunchReplaysHeld | src/GZDoomDebugAdapterProxy.ts:321-351 | once connected and scanned, a launch is sent with the project's sources, and then every held request is replayed in order (also lines 361-365) |
| GZDoomProxy.LaunchStepEffect | src/GZDoomDebugAdapterProxy.ts:337-350 | sending the launch marks it sent, sends it first, then the held requests' messages |
| GZDoomProxy.LaunchWaits | src/GZDoomDebugAdapterProxy.ts:321-333 | a launch before the connection waits for it, and one before the scan waits for that; nothing is sent |
| GZDoomProxy.RetryOne | src/GZDoomDebugAdapterProxy.ts:323-331 | retrying one waiting launch is handling it again |
| GZDoomProxy.HandshakeInEitherOrder | src/GZDoomDebugAdapterProxy.ts:321-351 | whether the connection or the end of the scan comes first, the launch is sent exactly once and nothing goes to the client |
| GZDoomProxy.ResponseRunsCallbackOnce | src/GZDoomDebugAdapterProxy.ts:174-189 | a response to a pending request removes it and runs its callback; a later timeout does nothing and a repeated response goes straight to the client (also lines 274-281) |
| GZDoomProxy.TimeoutRunsCallbackOnce | src/GZDoomDebugAdapterProxy.ts:174-189 | a timeout removes the pending request and runs its callback with a 'timeout' response; a later response goes straight to the client and a second timeout does nothing (also lines 274-281) |
| GZDoomProxy.UnmatchedResponseForwarded | src/GZDoomDebugAdapterProxy.ts:187-189 | a response with no pending request is passed to the client and nothing else changes |
| GZDoomProxy.LoadedSourcesNeverForwarded | src/GZDoomDebugAdapterProxy.ts:390-397 | the `loadedSources` callback rewrites the sources but sends nothing: the response never reaches the client |
| GZDoomProxy.SocketEndStops | src/DebugAdapterProxy.ts:467-500 | when the socket ends, the client gets the output event `OnSocketEnd` decides and then 'terminated', the exit code is emitted, and the proxy is no longer connected |
| GZDoomProxy.Proxy.constructor | src/GZDoomDebugAdapterProxy.ts:147-169 | the project path and archive given, in the initial state |
| GZDoomProxy.Proxy.Start | src/DebugAdapterProxy.ts:456-466 | the socket is created |
| GZDoomProxy.Proxy.SendRequestToServerWithCB | src/GZDoomDebugAdapterProxy.ts:264-283 | the request is sent to the debugger and its callback registered under its sequence number |
| GZDoomProxy.Proxy.Dispatch | src/GZDoomDebugAdapterProxy.ts:367-384 | the request goes to its command's handler |
| GZDoomProxy.Proxy.SendLaunch | src/GZDoomDebugAdapterProxy.ts:337-350 | the launch or attach request goes out with the project's sources, and the held requests are replayed |
| GZDoomProxy.Proxy.LaunchOrAttach | src/GZDoomDebugAdapterProxy.ts:321-351 | the launch waits for the connection, then the scan, then is sent |
| GZDoomProxy.Proxy.HandleClientRequest | src/GZDoomDebugAdapterProxy.ts:353-389 | launch and attach are handled at once; other requests are held until the launch is sent, except initialize |
| GZDoomProxy.Proxy.HandleMessage | src/DebugAdapterProxy.ts:751-760 | `initialize` sets the client capabilities; requests go to `handleClientRequest` and other messages to the debugger (also `src/GZDoomDebugAdapterProxy.ts` lines 208-216) |
| GZDoomProxy.Proxy.RetryLaunches | src/GZDoomDebugAdapterProxy.ts:323-331 | the launches that waited are handled again, in order |
| GZDoomProxy.Proxy.OnConnect | src/DebugAdapterProxy.ts:462-466 | the proxy is connected, the queue is flushed, and the launches that waited for the connection are retried (also `src/GZDoomDebugAdapterProxy.ts` lines 323-325) |
| GZDoomProxy.Proxy.ScanFinished | src/GZDoomDebugAdapterProxy.ts:297-311 | the found paths are stored case-insensitively, the scan is done, and the launches that waited for it are retried (also lines 329-331) |
| GZDoomProxy.Proxy.Stop | src/DebugAdapterProxy.ts:492-500 | the proxy is disconnected and the client gets 'terminated' |
| GZDoomProxy.Proxy.RunCallback | src/GZDoomDebugAdapterProxy.ts:346-348 | each callback's rewrite of the response and what it sends (also lines 391-408, lines 413-429) |
| GZDoomProxy.Proxy.HandleMessageFromServer | src/GZDoomDebugAdapterProxy.ts:174-204 | a pending response runs its callback, an unmatched response goes to the client, an output event gets a newline, a `loadedSource` event has its source rewritten |
| GZDoomProxy.Proxy.OnTimeout | src/GZDoomDebugAdapterProxy.ts:273-282 | a request still pending is removed and its callback runs with a 'timeout' failure |
| GZDoomProxy.Proxy.OnSocketEnd | src/DebugAdapterProxy.ts:467-489 | the close and error handlers followed by `stop` |
| SourceRewrite.ConvertClientSourceToDebugger | src/GZDoomDebugAdapterProxy.ts:594-609 | a source without a path is returned as it is; otherwise its path is made relative to the project where that does not climb out of it, its origin defaults to the project archive, and its name and reference are kept |
| SourceRewrite.DotDotPrefix | src/GZDoomDebugAdapterProxy.ts:601 | a relative path of plain segments starts with '..' exactly when its first segment does, and is never absolute |
| SourceRewrite.ClientSourceUnderRoot | src/GZDoomDebugAdapterProxy.ts:599-604 | a file under the project root is sent to the debugger as its path relative to the root |
| SourceRewrite.ClientSourceDotDotKept | src/GZDoomDebugAdapterProxy.ts:601-603 | a file whose relative path would start with '..' is sent with its path unchanged |
| SourceRewrite.ConvertDebuggerSourceToClient | src/GZDoomDebugAdapterProxy.ts:611-629 | a source without a path is returned as it is, and the origin is never changed |
| SourceRewrite.DebuggerSourceHit | src/GZDoomDebugAdapterProxy.ts:615-628 | a path found in the scanned paths, ignoring case, is replaced by the stored path, with its basename as name and reference 0 |
| SourceRewrite.DebuggerSourceMiss | src/GZDoomDebugAdapterProxy.ts:620-623 | a path not among the scanned paths comes back unchanged |
| SourceRewrite.SentSourceLookup | src/GZDoomDebugAdapterProxy.ts:599-617 | a file under the project root sent to the debugger is looked up again under its full path |
| SourceRewrite.SourceRoundTrip | src/GZDoomDebugAdapterProxy.ts:594-629 | a scanned file under the project root sent to the debugger and reported back returns with its full path, its basename as name, reference 0, and its origin or the project archive |
| SourceRewrite.ProjectSources | src/GZDoomDebugAdapterProxy.ts:337-344 | one source per scanned path, in order, named by its basename, with the path converted for the debugger and the project archive as origin |
| SourceRewrite.RewriteItems | src/GZDoomDebugAdapterProxy.ts:417-423 | as many items as before, each with a source exactly when it had one (also lines 450-454, lines 464-468, lines 476-482) |
| SourceRewrite.Reply | src/GZDoomDebugAdapterProxy.ts:346-348 | the default handler forwards the response unchanged; `loadedSources` and `disconnect` forward nothing; the others only rewrite the sources in the body; a stack trace is forwarded exactly when every frame has a source (also lines 391-484) |
| SourceRewrite.EventReply | src/GZDoomDebugAdapterProxy.ts:190-200 | an output event gets a newline after its text; a `loadedSource` event is forwarded exactly when it has a source, rewritten for the client; other events pass unchanged (also lines 218-223) |
| SourceRewrite.ErrorResponse | src/GZDoomDebugAdapterProxy.ts:225-262 | the response fails, its message is the format with personal data excluded, and its body carries the error with the user and telemetry flags taken from the destination |
| SourceRewrite.CrashResponse | src/GZDoomDebugAdapterProxy.ts:386-388 | a request whose handler throws is answered with a failure, code 1104, sent to telemetry only, with message '{_stack}' |
| SourceRewrite.Route | src/GZDoomDebugAdapterProxy.ts:367-384 | a `setBreakpoints` request without a source is answered with the crash response and nothing else is; the sources of `setBreakpoints` and `source` requests are converted; every other request is forwarded unchanged, unknown commands with the default handler (also lines 405-410, lines 433-440) |
| CommandLine.Step | src/DebugLauncherService.ts:80-95 | one character of the split: a quote opens a quoted run and is kept, the matching quote closes it and ends the argument, a space outside quotes ends a non-empty argument, anything else is appended |
| CommandLine.SplitCommandLine | src/DebugLauncherService.ts:75-99 | the loop's arguments are `Tokenize` of the command line |
| CommandLine.FoldAppend | src/DebugLauncherService.ts:79-96 | splitting two pieces of a command line one after the other is splitting their concatenation |
| CommandLine.TokensNonEmpty | src/DebugLauncherService.ts:88-99 | the split never yields an empty argument |
| CommandLine.PlainRun | src/DebugLauncherService.ts:93-95 | a run of characters without spaces or quotes is appended to the current argument |
| CommandLine.QuotedRun | src/DebugLauncherService.ts:80-95 | inside quotes, spaces and the other quote are kept |
| CommandLine.QuotedToken | src/DebugLauncherService.ts:80-92 | a quoted argument keeps its opening quote, loses its closing one, and ends there |
| CommandLine.SpaceEndsToken | src/DebugLauncherService.ts:88-92 | a space outside quotes ends the current argument |
| CommandLine.FromArgv | src/DebugLauncherService.ts:100-103 | the first argument is the command and the rest are its arguments |
| CommandLine.FileArgs | src/DebugLauncherService.ts:224-226 | two arguments per pwad |
| CommandLine.FileArgsPairs | src/DebugLauncherService.ts:224-226 | each pwad is preceded by '-file', in order |
| CommandLine.LaunchCommandFor | src/DebugLauncherService.ts:208-241 | the arguments start with '-iwad', the iwad, '-debug' and the port, then a '-file' pair per pwad, then '-config' and '+map' when given and non-empty, then the extra arguments |
| CommandLine.GetLaunchCommand | src/DebugLauncherService.ts:208-241 | the loop builds exactly `LaunchCommandFor` |
| Launcher.GamePIDsExactly | src/DebugLauncherService.ts:50-62 | a PID is returned by `getGamePIDs` exactly when some process in the table has it and is named `gzdoom` in any case |
| Launcher.RunningExactly | src/DebugLauncherService.ts:45-48 | `getGameIsRunning` holds exactly when some process in the table is named `gzdoom` in any case |
| Launcher.RunningIffPIDs | src/DebugLauncherService.ts:45-62 | the game is running exactly when the list of game PIDs is non-empty |
| Launcher.SignalsInOrder | src/DebugLauncherService.ts:130-139 | one sweep signals each PID of the list once, in list order, with the sweep's signal |
| Launcher.SweepUnfolds | src/DebugLauncherService.ts:129-142 | while PIDs remain and fewer than five sweeps were made, a sweep signals them all (`SIGTERM` on the first sweep, `SIGKILL` after) and lists the PIDs again |
| Launcher.SweepIfRunningSweeps | src/DebugLauncherService.ts:127-129 | when the game runs, the sweeps start from the PIDs of the next process-table query |
| Launcher.SweepsBounded | src/DebugLauncherService.ts:129-142 | the sweeps make at most five table queries in all and read neither the clock nor the port |
| Launcher.LaterSweepsForceKill | src/DebugLauncherService.ts:133-137 | every sweep after the first sends only `SIGKILL`, and only to game processes, after the signals already sent |
| Launcher.FirstSweepTerminates | src/DebugLauncherService.ts:129-137 | the first sweep sends `SIGTERM` to each listed PID in order; every later signal is `SIGKILL` |
| Launcher.SweepsGiveUp | src/DebugLauncherService.ts:129-145 | when the game never goes away the loop stops after exactly five sweeps |
| Launcher.SweepsStopWhenGone | src/DebugLauncherService.ts:129-142 | when the game is gone after the first sweep, that sweep is the only one |
| Launcher.GameWaitStep | src/DebugLauncherService.ts:291-305 | one turn of the first `runLauncher` loop: query, clock reading, launcher error when the game is not running and the launcher exited with an error, otherwise loop until the game runs or 15 s pass |
| Launcher.ConnectionWaitStep | src/DebugLauncherService.ts:325-356 | one turn of the second loop: past the deadline `gameFailedToStart`, game gone `launcherError` or `gameFailedToStart` by the launcher's exit code, port open `success`, otherwise probe again |
| Launcher.OneGameThenPortWait | src/DebugLauncherService.ts:313-327 | with exactly one game PID, that PID is recorded and the port wait starts with a 15 s deadline from a fresh clock reading |
| Launcher.WaitForGameMakesNoProbes | src/DebugLauncherService.ts:289-305 | the first loop neither probes the port nor signals any process |
| Launcher.TearDownMakesNoProbes | src/DebugLauncherService.ts:112-153 | `tearDownAfterDebug` neither probes the port nor reads the clock |
| Launcher.SweepIfRunningNoProbes | src/DebugLauncherService.ts:127-148 | the game sweeps neither probe the port nor read the clock |
| Launcher.ConnectionOutcome | src/DebugLauncherService.ts:325-358 | the second loop ends in `success`, `launcherError` or `gameFailedToStart`; success only after a probe that found the port open, launcher error only when the launcher exited with a non-zero code |
| Launcher.AfterGameWaitOutcome | src/DebugLauncherService.ts:307-358 | after the first loop: never `gameExitedBeforeOpening`; success only with a game PID and an open port; cancellation and too many games before any probe and without a PID; a cancelled launch holds no launcher |
| Launcher.SpawnedOutcome | src/DebugLauncherService.ts:259-271 | a launcher spawned without its pipes gives `launcherError` at once; otherwise the outcome facts above hold |
| Launcher.NeverExitedBeforeOpening | src/DebugLauncherService.ts:244-359 | `runLauncher` never returns `gameExitedBeforeOpening` |
| Launcher.SuccessNeedsOneGameAndOpenPort | src/DebugLauncherService.ts:313-358 | `runLauncher` succeeds only with a recorded game PID and after a probe that found the port open |
| Launcher.WrongGameCountBeforeProbing | src/DebugLauncherService.ts:259-322 | too many games is reported before any probe and without a PID; a spawn without pipes gives `launcherError` right after the teardown |
| Launcher.CancelledTearsDown | src/DebugLauncherService.ts:307-310 | a cancelled launch tears down, so it holds no launcher and no PID, and it probed nothing |
| Launcher.PortWaitResult | src/DebugLauncherService.ts:182-206 | `waitForPort` returns true only when the last probe found the port open, and false only past the deadline or when the callback said to stop |
| Launcher.Os.FindByName | src/DebugLauncherService.ts:46 | a process-table query returns the table's next answer and counts one query |
| Launcher.Os.Now | src/DebugLauncherService.ts:156 | a clock reading returns the clock's next value and counts one reading |
| Launcher.Os.Probe | src/DebugLauncherService.ts:339-347 | a port probe returns whether the port was open at that probe and counts one probe |
| Launcher.Os.Kill | src/DebugLauncherService.ts:133-137 | a signal is recorded after those already sent |
| Launcher.DebugLauncherService.Reset | src/DebugLauncherService.ts:40-43 | no launcher process and no game PID are held afterwards |
| Launcher.DebugLauncherService.GetGameIsRunning | src/DebugLauncherService.ts:45-48 | the answer is `GameIsRunning` of one table query |
| Launcher.DebugLauncherService.GetGamePIDs | src/DebugLauncherService.ts:50-62 | the answer is `GamePIDs` of one table query |
| Launcher.DebugLauncherService.GetLaunchCommandFromRunningProcess | src/DebugLauncherService.ts:64-110 | the process on the port, else the first found by name, else nothing; its command line split into command and arguments, with the working directory `lsof` reports |
| Launcher.DebugLauncherService.TearDownAfterDebug | src/DebugLauncherService.ts:112-153 | returns true, holds no launcher or PID afterwards, and its signals are those of killing the launcher then sweeping the games |
| Launcher.DebugLauncherService.SweepRunningGames | src/DebugLauncherService.ts:127-148 | the sweeps run only when the game is running |
| Launcher.DebugLauncherService.StopLauncher | src/DebugLauncherService.ts:114-125 | a held launcher gets `SIGTERM`, and `SIGKILL` when that fails; no launcher, no signal |
| Launcher.DebugLauncherService.SweepGames | src/DebugLauncherService.ts:129-145 | the sweep loop does what `Sweeps` describes |
| Launcher.DebugLauncherService.SignalEach | src/DebugLauncherService.ts:131-139 | one signal per PID, in order, appended to those sent |
| Launcher.DebugLauncherService.KeepSleepingUntil | src/DebugLauncherService.ts:155-163 | true exactly when the clock reading is no later than `startTime + timeout` |
| Launcher.DebugLauncherService.WaitForPort | src/DebugLauncherService.ts:182-206 | the loop does what `PortWait` describes, with a 15 s default timeout and a callback that keeps waiting by default |
| Launcher.DebugLauncherService.AwaitGame | src/DebugLauncherService.ts:289-305 | the first loop does what `WaitForGame` describes |
| Launcher.DebugLauncherService.AwaitDebugPort | src/DebugLauncherService.ts:325-358 | the second loop does what `WaitForConnection` describes |
| Launcher.DebugLauncherService.RunLauncher | src/DebugLauncherService.ts:244-359 | the outcome, the trace of queries, clock readings, probes and signals, and the held launcher and PID are those of `RunLauncherSpec` |
| Launcher.DebugLauncherService.Spawn | src/DebugLauncherService.ts:259-305 | from the spawn to the end, `runLauncher` does what `Spawned` describes |
| Launcher.DebugLauncherService.AfterAwaitGame | src/DebugLauncherService.ts:307-358 | after the first loop, `runLauncher` does what `AfterGameWait` describes |
| Launcher.DebugLauncherService.constructor | src/DebugLauncherService.ts:33-39 | a new service has no launcher process and no game PID |
| Activation.Resolve | src/activateGZDoomDebug.ts:68-81 | a configuration with no type, request or name, opened on a ZScript, ACS or DECORATE document, gets the `gzdoom` attach defaults (name, request, port 19021, the workspace folder as project); any other configuration comes back unchanged |
| Activation.ResolveIdempotent | src/activateGZDoomDebug.ts:68-81 | resolving twice is resolving once, and only the five defaulted fields can change |
| Activation.ResolveDebugConfiguration | src/activateGZDoomDebug.ts:68-81 | the same configuration object is returned, updated in place as `Resolve` describes |
| Activation.PortOr | src/activateGZDoomDebug.ts:176 | the configured port when it is set and non-zero, otherwise the default port; never 0 |
| Activation.WithArchive | src/activateGZDoomDebug.ts:182-187 | a path string becomes a project whose archive is that path; an empty archive is replaced by the path |
| Activation.NormalizeProject | src/activateGZDoomDebug.ts:181-194 | an absolute archive, or one equal to `cwd`, is kept; a relative one is joined onto `cwd`; joining onto an undefined `cwd` is the error `path.join` throws |
| Activation.NormalizeProjects | src/activateGZDoomDebug.ts:181-194 | every project normalised in order, or the join error when any of them fails |
| Activation.RewrittenAt | src/activateGZDoomDebug.ts:181-194 | what the `map` leaves in the configured array at each index: a string entry is kept, a `ProjectItem` the callback reaches is normalised in place (only its archive defaulted when it is the one that throws), and every entry after a throw is kept |
| Activation.RewrittenNormalized | src/activateGZDoomDebug.ts:181-194 | when no project throws, each `ProjectItem` in the configured array is the normalised project at its index and each string entry stays a string |
| Activation.Archives | src/activateGZDoomDebug.ts:214 | the PWAD list is each project's archive, in project order |
| Activation.FirstMissing | src/activateGZDoomDebug.ts:203-210 | the index of the first project whose archive is neither a directory nor a file, or the count when there is none |
| Activation.FixArchive | src/activateGZDoomDebug.ts:251-263 | a path string or an empty archive is the error `Project archive path is required.`; a directory archive (or one equal to the path) ends in one `/`; any other archive becomes its base name |
| Activation.FixArchiveSettles | src/activateGZDoomDebug.ts:255-260 | fixing a directory archive a second time changes nothing |
| Activation.FirstUnfixable | src/activateGZDoomDebug.ts:251-254 | the index of the first project the fixing loop throws on, or the count when there is none |
| Activation.FixedUpTo | src/activateGZDoomDebug.ts:251-264 | the loop has fixed the projects before the index in place and left the others as they were |
| Activation.Prepared | src/activateGZDoomDebug.ts:165-197 | when the set-up succeeds, there is at least one project and the port is set to the configured one or the default |
| Activation.CreateDebugAdapterDescriptor | src/activateGZDoomDebug.ts:163-268 | the descriptor, the messages shown, the launch command and the configuration left behind are those of `Describe` |
| Activation.PrepareSession | src/activateGZDoomDebug.ts:165-197 | the set-up does what `Prepared` describes, with the configured array rewritten by the `map` as `Rewritten` gives it, and sets the port on success |
| Activation.ApplyDefaults | src/activateGZDoomDebug.ts:165-179 | the session folder as the only project, the default port and the first workspace folder as `cwd`, each only when not configured |
| Activation.PreparedProjects | src/activateGZDoomDebug.ts:181-197 | after a successful set-up the configuration holds the `map`'s in-place rewrite: strings as configured, each `ProjectItem` the normalised project at its index |
| Activation.UnlaunchedKeepsRewritten | src/activateGZDoomDebug.ts:181-246 | a session that neither gets the proxy nor reaches the archive fix-up (failed set-up, missing archive, cancelled or failed launch, game not running) leaves the configuration with the array as the `map` left it |
| Activation.UnlaunchedKeepsProjects | src/activateGZDoomDebug.ts:198-246 | past the set-up, only the archive fix-up changes the configured projects |
| Activation.UnfixedKeepsProjects | src/activateGZDoomDebug.ts:231-246 | the launch outcome and the game check leave the configured projects as they are |
| Activation.FindMissingArchive | src/activateGZDoomDebug.ts:203-210 | the loop stops at `FirstMissing` |
| Activation.LaunchSession | src/activateGZDoomDebug.ts:198-246 | from the checks of the archives to the attach, the method does what `LaunchOrAttach` describes |
| Activation.FinishSession | src/activateGZDoomDebug.ts:231-267 | after the launch, the method does what `Finish` describes |
| Activation.FixArchives | src/activateGZDoomDebug.ts:251-267 | the archives before the first unfixable project are fixed in place; it throws `Project archive path is required.` there, or else returns the inline adapter |
| Activation.NoProjectPath | src/activateGZDoomDebug.ts:165-168 | `No project path provided.` is thrown exactly when there are neither projects nor a workspace folder, or the project list is empty (also lines 195-197) |
| Activation.OnlySetUpErrorsBeforeLaunch | src/activateGZDoomDebug.ts:198-264 | once the projects are prepared, the only errors thrown are the launch failure and the missing archive |
| Activation.MissingArchiveStopsLaunch | src/activateGZDoomDebug.ts:203-208 | a launch with a missing archive returns the no-op adapter, marks the session no-op and shows the error, without running the launcher |
| Activation.LaunchedCommand | src/activateGZDoomDebug.ts:201-228 | the launcher runs only for a `launch` request, and with the command `getLaunchCommand` builds from the configuration |
| Activation.PwadsInOrder | src/activateGZDoomDebug.ts:211-220 | a launch passes the port at argument 3 and one `-file <archive>` pair per project, in project order (also `src/DebugLauncherService.ts` lines 208-241) |
| Activation.LaunchOutcomes | src/activateGZDoomDebug.ts:231-246 | cancelled gives the no-op adapter with no message; every other failure throws `'gzdoom' failed to launch.`; the multiple-games message appears exactly for that outcome; the inline adapter needs success and a running game |
| Activation.InlineArchivesFixed | src/activateGZDoomDebug.ts:247-267 | the inline adapter is returned only with every project's archive fixed |
| Activation.FinishFixesArchives | src/activateGZDoomDebug.ts:247-267 | after a launch, the inline adapter is returned only with every project's archive fixed |
| Activation.DebugConfiguration.constructor | src/activateGZDoomDebug.ts:164 | the configuration object holds exactly the fields of the session's configuration |
| Lumps.StripNuls | src/doom-wad/Lumps/Lump.ts:13 | `replace(/\0+$/g, "")`: the longest prefix that leaves only NUL characters after it, ending in a non-NUL character |
| Lumps.Padded | src/doom-wad/Lumps/Lump.ts:25 | a name of at most eight characters, padded with NUL characters to exactly eight |
| Lumps.NormalizeName | src/doom-wad/Lumps/Lump.ts:11-26 | the trimmed, NUL-stripped name is refused with `Invalid lump name` unless it is non-empty and made of `A-Z`, `0-9`, `[`, `]`, `-`, `_` and `\`; otherwise its first eight characters are kept and padded with NULs to eight |
| Lumps.StripPadding | src/doom-wad/Lumps/Lump.ts:13 | stripping the trailing NULs of a padded valid name gives the name back (also line 25) |
| Lumps.CleanedPadded | src/doom-wad/Lumps/Lump.ts:13 | trimming and stripping a padded valid name gives the name back (also line 25) |
| Lumps.NameIdempotent | src/doom-wad/Lumps/Lump.ts:11-26 | setting a lump's name to the name it already holds changes nothing |
| Lumps.SetterStoresStoredName | src/doom-wad/Lumps/Lump.ts:11-26 | every name the setter stores is eight characters: a valid name and then NULs |
| Lumps.StoredNameKept | src/doom-wad/Lumps/Lump.ts:11-26 | a name of that stored form is accepted and kept as it is |
| Lumps.NulTailFrom | src/doom-wad/Lumps/LumpFactory.ts:17 | the first position at or after `from` where a NUL starts the rest of the name, or -1 |
| Lumps.CutAtNul | src/doom-wad/Lumps/LumpFactory.ts:17 | `replace(/\0.*$/g, '')`: the name cut at the first NUL that no line terminator follows, since `.` matches no line terminator |
| Lumps.KindOfStoredName | src/doom-wad/Lumps/LumpFactory.ts:13-27 | the class chosen for a valid name is the one registered for the name's first eight cleaned characters, or the plain lump |
| Lumps.Lump.Content | src/doom-wad/Lumps/Lump.ts:28-31 | a plain lump's content is the bytes it was given; a `TEXTMAP` lump's is its map serialised (also `src/doom-wad/Lumps/Textmap.ts` lines 250-285) |
| Lumps.Lump.Length | src/doom-wad/Lumps/Lump.ts:38-41 | the length is the byte length of the content |
| Lumps.Lump.SetName | src/doom-wad/Lumps/Lump.ts:11-26 | an accepted name is stored normalised; a refused one raises `Invalid lump name` and leaves the lump unchanged |
| Lumps.Lump.SetContent | src/doom-wad/Lumps/Lump.ts:33-36 | the bytes are stored; a `TEXTMAP` lump also takes the namespace and blocks the parser reads from them, keeping those read before a parse error, whose message is returned (also `src/doom-wad/Lumps/Textmap.ts` lines 237-248) |
| Lumps.LumpFactory.constructor | src/doom-wad/Lumps/LumpFactory.ts:30 | the registry starts with `TEXTMAP` mapped to the `TEXTMAP` lump class |
| Lumps.LumpFactory.RegisterClassForName | src/doom-wad/Lumps/LumpFactory.ts:8-11 | the class is registered under the upper-cased name, replacing any earlier one |
| Lumps.LumpFactory.CreateFromName | src/doom-wad/Lumps/LumpFactory.ts:13-27 | a fresh empty lump of the registered class is named `name`, or the name is refused with `Invalid lump name` |
| Lumps.TextmapNameRegistered | src/doom-wad/Lumps/LumpFactory.ts:30 | a lump named `TEXTMAP` is stored as `TEXTMAP` and one NUL, and is created as a `TEXTMAP` lump |
| Lumps.Lump.constructor | src/doom-wad/Lumps/Lump.ts:3-4 | a new lump has an empty name and empty content (and, for a `TEXTMAP` lump, no namespace and no blocks) |
| Lumps.TrimName | src/doom-wad/Lumps/Lump.ts:13 | a name of name characters that starts with one is left alone by trimming |
| Textmaps.BlockTypeOf | src/doom-wad/Lumps/Textmap.ts:170-183 | only the five names `thing`, `vertex`, `linedef`, `sidedef` and `sector` are block types, each read as the type it names |
| Textmaps.BlockTypeNamed | src/doom-wad/Lumps/Textmap.ts:172-179 | every block type's name is read back as that type |
| Textmaps.KeyIndex | src/doom-wad/Lumps/Textmap.ts:195 | the position of the first property with the key, or -1 when no property has it |
| Textmaps.SetProperty | src/doom-wad/Lumps/Textmap.ts:195 | `properties[name] = value` on an object: `__proto__` changes nothing, a new key is added last, an existing key keeps its place and takes the new value |
| Textmaps.LookupIndex | src/doom-wad/Lumps/Textmap.ts:195 | reading a key gives the value at its first position, or nothing |
| Textmaps.LastAssignmentWins | src/doom-wad/Lumps/Textmap.ts:192-196 | after an assignment the key reads as the value assigned, and every other key reads as before |
| Textmaps.ProtoAssignmentDropped | src/doom-wad/Lumps/Textmap.ts:195 | an assignment to `__proto__` leaves the properties unchanged |
| Textmaps.ParseAssignment | src/doom-wad/Lumps/Textmap.ts:139-161 | an assignment is an identifier, `=`, any value token and `;`, four tokens in all; the property is the identifier's text and the value token's value |
| Textmaps.ParseProperties | src/doom-wad/Lumps/Textmap.ts:192-196 | the loop stops at the close brace; on success the cursor is on it |
| Textmaps.ParseBlock | src/doom-wad/Lumps/Textmap.ts:163-207 | a block is a block type, `{`, assignments and `}`, at least three tokens |
| Textmaps.ParseBlocksKeeps | src/doom-wad/Lumps/Textmap.ts:233-234 | the block loop only appends, so blocks read before an error are kept |
| Textmaps.Parse | src/doom-wad/Lumps/Textmap.ts:209-235 | no tokens is the error `Expected one or more tokens`; a namespace is read only from a leading `namespace` assignment |
| Textmaps.ParseBlockAt | src/doom-wad/Lumps/Textmap.ts:163-207 | the method with its property loop reads what `ParseBlock` describes |
| Textmaps.ParseTokens | src/doom-wad/Lumps/Textmap.ts:209-235 | the method with its block loop parses what `Parse` describes |
| Textmaps.Escape | src/doom-wad/Lumps/Textmap.ts:253 | `replace` with a string pattern escapes only the first `"`: a string without one is unchanged, and at most one character is added |
| Textmaps.EscapeFirstQuote | src/doom-wad/Lumps/Textmap.ts:253 | the first `"` becomes `\"` and everything else is left as it was |
| Textmaps.PropertyLines | src/doom-wad/Lumps/Textmap.ts:263-278 | one line `key = value;` per property, in property order |
| Textmaps.Lines | src/doom-wad/Lumps/Textmap.ts:252-282 | a non-empty namespace is written first as `namespace = "<escaped>";` |
| Textmaps.AllBlockLinesCount | src/doom-wad/Lumps/Textmap.ts:258-282 | each block writes its type, `{`, one line per property and `}` |
| Textmaps.ValueToken | src/doom-wad/Lumps/Textmap.ts:84-104 | the token a written value is read back as carries that value |
| Textmaps.PropertyTokens | src/doom-wad/Lumps/Textmap.ts:277 | each written property line is four tokens |
| Textmaps.BlockTokens | src/doom-wad/Lumps/Textmap.ts:258-282 | each written block is three tokens and four per property |
| Textmaps.PropertiesRoundTrip | src/doom-wad/Lumps/Textmap.ts:192-196 | written property lines with distinct keys are read back as the same properties in the same order (also lines 263-278) |
| Textmaps.BlockRoundTrip | src/doom-wad/Lumps/Textmap.ts:163-207 | a written block is read back as the same block (also lines 258-282) |
| Textmaps.BlocksRoundTrip | src/doom-wad/Lumps/Textmap.ts:233-234 | written blocks followed by the end of input are read back as the same blocks (also lines 258-282) |
| Textmaps.NamespaceFirst | src/doom-wad/Lumps/Textmap.ts:228-231 | a leading `namespace = "<s>";` sets the namespace and the blocks are read after it |
| Textmaps.BlocksFirst | src/doom-wad/Lumps/Textmap.ts:228-234 | without a leading `namespace`, the blocks are read from the first token |
| Textmaps.ParseSerialized | src/doom-wad/Lumps/Textmap.ts:209-235 | the tokens of a serialised map, with a non-empty namespace or none and distinct keys in every block, parse back to the same namespace and blocks, without error (also lines 250-285) |
| Wads.WriteMessage | src/doom-wad/Writer.ts:37-83 | each error the writer throws carries its own message: an invalid 32-bit value, an invalid byte value, a character beyond one byte, a padded string too long |
| Wads.Int32At | src/doom-wad/Reader.ts:43-50 | `getInt32(cursor, true)`: four bytes read little-endian as a signed 32-bit value |
| Wads.Le32Read | src/doom-wad/Reader.ts:43-50 | a value the writer accepts, written as four little-endian bytes, is read back as that value (also `src/doom-wad/Writer.ts` lines 47-55) |
| Wads.ByteBytes | src/doom-wad/Writer.ts:37-45 | `writeUint8` accepts exactly the values 0 to 255 |
| Wads.Int32Bytes | src/doom-wad/Writer.ts:47-55 | `writeInt32` accepts exactly the values 0 to 2147483647, and writes four bytes |
| Wads.Latin1 | src/doom-wad/Reader.ts:52-63 | `readString`: one character per byte, with that byte's code |
| Wads.FirstWide | src/doom-wad/Writer.ts:59-68 | the position of the first character whose code is above 255, or the length |
| Wads.StringBytes | src/doom-wad/Writer.ts:57-72 | a string is written one byte per character, or refused at its first character above 255 |
| Wads.PaddedBytes | src/doom-wad/Writer.ts:74-83 | a padded string is exactly `length` bytes, and a longer string is refused |
| Wads.Slice | src/doom-wad/Reader.ts:98 | `ArrayBuffer.slice` with its clamping; within bounds it is the sub-range |
| Wads.HeaderType | src/doom-wad/Reader.ts:65-70 | the header type is accepted only when its four characters name `IWAD` or `PWAD` |
| Wads.Caught | src/doom-wad/Reader.ts:121-133 | a `RangeError` while reading becomes the parse error `End of file reached unexpectedly`; other errors pass through |
| Wads.ReadLumpsFails | src/doom-wad/Reader.ts:88-103 | an entry that cannot be read stops the dictionary loop with its error |
| Wads.ReadLumpsNext | src/doom-wad/Reader.ts:88-103 | a read entry is appended and the loop goes on 16 bytes later |
| Wads.ReadWad | src/doom-wad/Reader.ts:114-134 | a load gives the lumps exactly when it raises no error; no `RangeError` escapes it; lumps come only with a type |
| Wads.Contents | src/doom-wad/Writer.ts:118-131 | the lump payloads written back to back, as long as their total |
| Wads.Dictionary | src/doom-wad/Writer.ts:136-145 | the first `k` dictionary entries, 16 bytes each |
| Wads.TypeBytesWritten | src/doom-wad/Writer.ts:101 | the type is written as its four ASCII letters and read back as its name (also `src/doom-wad/Reader.ts` line 67) |
| Wads.Header | src/doom-wad/Writer.ts:97-111 | the header is 12 bytes: the type, the lump count and the dictionary offset |
| Wads.Image | src/doom-wad/Wad.ts:30-39 | a saved WAD is exactly `getBufferSize` bytes: 12, plus 16 and the length for each lump (also `src/doom-wad/Writer.ts` lines 16-30) |
| Wads.ContentsPrefix | src/doom-wad/Writer.ts:118-131 | the payloads of the first `k` lumps start the lump area |
| Wads.ContentAt | src/doom-wad/Writer.ts:123-130 | each lump's payload sits at the total length of the lumps before it |
| Wads.DictionaryAt | src/doom-wad/Writer.ts:136-145 | entry `i` of the dictionary holds lump `i`'s position, length and padded name |
| Wads.StoredNameBytes | src/doom-wad/Writer.ts:142 | a stored lump name is written as eight bytes that read back as the name (also `src/doom-wad/Lumps/Lump.ts` line 25) |
| Wads.SavableImage | src/doom-wad/Writer.ts:97-145 | with stored names and every offset below 2^31, saving raises no error |
| Wads.DictionaryOk | src/doom-wad/Writer.ts:136-145 | with names that encode and offsets below 2^31, every dictionary entry is written |
| Wads.HeaderReadBack | src/doom-wad/Writer.ts:97-111 | a written header is read back as the same type, count and offset (also `src/doom-wad/Reader.ts` lines 65-78) |
| Wads.EntryReadBack | src/doom-wad/Writer.ts:139-142 | a written dictionary entry is read back as a lump with the same name and payload (also `src/doom-wad/Reader.ts` lines 90-102) |
| Wads.DictionaryDecoded | src/doom-wad/Writer.ts:113-146 | in a saved image, each dictionary entry points at its lump's payload |
| Wads.LoadDecoded | src/doom-wad/Reader.ts:114-134 | an input whose header and entries describe the lumps loads as those lumps |
| Wads.SavedHeader | src/doom-wad/Writer.ts:97-111 | a saved image's header holds the type, the lump count and the dictionary offset 12 plus the payload total |
| Wads.LoadSaved | src/doom-wad/Wad.ts:24-39 | saving a WAD of one or more plain lumps with stored names and loading the image gives back the type and the lumps |
| Wads.SavedLoads | src/doom-wad/Wad.ts:24-39 | any image the writer produces for one or more plain lumps loads back as those lumps |
| Wads.EmptySaveDoesNotLoad | src/doom-wad/Wad.ts:24-39 | a WAD with no lumps saves as a 12-byte header, and loading it fails with `End of file reached unexpectedly` because the dictionary offset 12 is out of range (also `src/doom-wad/Reader.ts` lines 26-32) |
| WadArchive.EntryOfLump | src/doom-wad/Writer.ts:136-145 | the entry written for lump `i` is its name and its current content |
| WadArchive.ValuesSnoc | src/doom-wad/Reader.ts:102 | pushing a lump appends its value to the values of the list |
| WadArchive.HeaderWritten | src/doom-wad/Writer.ts:97-111 | the three header writes together write the header, or stop at the first refusal |
| WadArchive.WroteImage | src/doom-wad/Writer.ts:148-156 | the header and then the lumps and dictionary together write the whole image, or stop at the first refusal |
| WadArchive.Wad.constructor | src/doom-wad/Wad.ts:12-13 | a new WAD is a PWAD with no lumps |
| WadArchive.Wad.LumpsTotalByteLength | src/doom-wad/Wad.ts:15-22 | the loop sums to the total length of the lumps' contents |
| WadArchive.Wad.Load | src/doom-wad/Wad.ts:24-28 | the error, the type and the fresh lumps are those `ReadWad` gives; a failed load keeps the old lumps |
| WadArchive.Wad.Save | src/doom-wad/Wad.ts:30-39 | a fresh buffer holding exactly the image, or the first refusal raised as a `RangeError` with its message |
| WadArchive.Reader.Seek | src/doom-wad/Reader.ts:26-32 | a target below 0 or at or past the end raises `Attempted to seek out of range`; otherwise the cursor moves there |
| WadArchive.Reader.ReadUint8 | src/doom-wad/Reader.ts:34-41 | the byte at the cursor, and the cursor one further; past the end, a `RangeError` |
| WadArchive.Reader.ReadInt32 | src/doom-wad/Reader.ts:43-50 | the little-endian signed value at the cursor, and the cursor four further; short of four bytes, a `RangeError` |
| WadArchive.Reader.ReadString | src/doom-wad/Reader.ts:52-63 | length 0 reads nothing; otherwise one character per byte and the cursor `length` further, or a `RangeError` |
| WadArchive.Reader.ReadHeader | src/doom-wad/Reader.ts:65-78 | a type other than `IWAD` or `PWAD` raises `Invalid type in WAD header`; otherwise the type is set and the count and dictionary offset are read |
| WadArchive.Reader.ReadDictionaryAndLumps | src/doom-wad/Reader.ts:80-112 | a dictionary offset out of range raises the seek error; otherwise the lumps read replace the WAD's, or the first error is raised and the WAD's lumps are kept |
| WadArchive.Reader.ReadEntries | src/doom-wad/Reader.ts:88-109 | the loop reads what `ReadLumps` describes, entry by entry, and replaces the WAD's lumps only once all are read |
| WadArchive.Reader.ReadEntry | src/doom-wad/Reader.ts:90-102 | one entry: position, length and name, then a fresh lump made from the name and given the sliced bytes |
| WadArchive.Reader.ReadEntryFields | src/doom-wad/Reader.ts:90-95 | the position, the length and the eight-character name at the cursor, or a `RangeError` |
| WadArchive.Reader.CreateLump | src/doom-wad/Reader.ts:96-98 | the lump `createFromName` makes, with its content set to the bytes |
| WadArchive.Reader.Read | src/doom-wad/Reader.ts:114-134 | the error, the type and the lumps are those `ReadWad` gives |
| WadArchive.Writer.GetBufferSize | src/doom-wad/Writer.ts:16-30 | 12, plus 16 and the content length for each lump |
| WadArchive.Writer.WriteUint8 | src/doom-wad/Writer.ts:37-45 | one byte appended, or the byte-range refusal and nothing written |
| WadArchive.Writer.WriteInt32 | src/doom-wad/Writer.ts:47-55 | four little-endian bytes appended, or the 32-bit refusal and nothing written |
| WadArchive.Writer.WriteString | src/doom-wad/Writer.ts:57-72 | the characters appended as bytes, or the refusal of the first character above 255 |
| WadArchive.Writer.WritePaddedString | src/doom-wad/Writer.ts:74-83 | the string and then NULs up to `length` bytes, or the refusal of a string too long |
| WadArchive.Writer.WriteArrayBuffer | src/doom-wad/Writer.ts:85-95 | the data appended at the cursor |
| WadArchive.Writer.WriteHeader | src/doom-wad/Writer.ts:97-111 | the header bytes, or the first refusal |
| WadArchive.Writer.WriteOffset | src/doom-wad/Writer.ts:107-110 | the dictionary offset, the cursor plus 4 plus the total content length, which is 12 plus that total |
| WadArchive.Writer.WriteLumpsAndDictionary | src/doom-wad/Writer.ts:113-146 | the lump contents and then the dictionary, or the first refusal |
| WadArchive.Writer.WriteContents | src/doom-wad/Writer.ts:118-131 | every lump's content appended in order; each lump's position is recorded where its content starts |
| WadArchive.Writer.WriteLumpContent | src/doom-wad/Writer.ts:123-130 | one lump's position recorded and its content appended |
| WadArchive.Writer.WriteDictionary | src/doom-wad/Writer.ts:136-145 | the dictionary entries in order, or the first refusal |
| WadArchive.Writer.WriteEntry | src/doom-wad/Writer.ts:139-142 | one dictionary entry: position, length and padded name, or the first refusal |
| WadArchive.Writer.Write | src/doom-wad/Writer.ts:148-156 | the output holds the image, or the first refusal is raised |
| WadArchive.Reader.constructor | src/doom-wad/Reader.ts:16-19 | a new reader is bound to its WAD with no input, the cursor at 0 and no header read |
| WadArchive.Writer.constructor | src/doom-wad/Writer.ts:11-14 | a new writer is bound to its WAD, with the cursor at 0 and nothing written |
| Folding.HeaderStartsSolid | src/dehackedFoldingProvider.ts:2 | every header form (a bracketed section, `Text n n`, or a block name with its number) starts with a character that is not white space |
| Folding.HeaderNotBlank | src/dehackedFoldingProvider.ts:2 | a line the header pattern accepts never trims to the empty string |
| Folding.TrailerExtended | src/dehackedFoldingProvider.ts:2 | a header's trailer stays a trailer with a `#` or `//` comment appended |
| Folding.CommentAllowed | src/dehackedFoldingProvider.ts:2 | a header line stays a header with a `#` or `//` comment appended |
| Folding.Headers | src/dehackedFoldingProvider.ts:9-18 | the header lines after line 0, in increasing order |
| Folding.HeadersComplete | src/dehackedFoldingProvider.ts:9-18 | every header after line 0 is listed |
| Folding.IsBlankLine | src/dehackedFoldingProvider.ts:13 | a line is blank exactly when it is all white space |
| Folding.Closed | src/dehackedFoldingProvider.ts:12-15 | one region for each header after the first |
| Folding.ProvideFoldingRanges | src/dehackedFoldingProvider.ts:5-22 | the loop's ranges are `FoldingRanges` of the lines, for any header test |
| Folding.DocumentFoldingRanges | src/dehackedFoldingProvider.ts:2-22 | with the DeHackEd header pattern, the ranges are `FoldingRanges` of the lines |
| Folding.ScanHeaderLine | src/dehackedFoldingProvider.ts:11-17 | a header line closes the open section just before it (one line earlier after a blank line) and opens a new one |
| Folding.ClosedSnoc | src/dehackedFoldingProvider.ts:12-15 | a further header closes the region the previous one opened |
| Folding.ClosedAt | src/dehackedFoldingProvider.ts:12-15 | region `k` starts at header `k` and ends before header `k + 1` |
| Folding.RegionsOfHeaders | src/dehackedFoldingProvider.ts:7-21 | one region per header after line 0, starting at it; each ends before the next header, one line earlier when the line before that header is blank, and the last ends at the last line |
| Folding.RegionsStartAtHeaders | src/dehackedFoldingProvider.ts:7-21 | no region starts at line 0, and every region starts at a header |
| Folding.RegionsOrdered | src/dehackedFoldingProvider.ts:7-21 | regions are in increasing order of start, and each ends before the next starts |
| Folding.RegionsNonEmpty | src/dehackedFoldingProvider.ts:12-15 | when no header line is blank, every region starts no later than it ends |
| Folding.DocumentRegionsNonEmpty | src/dehackedFoldingProvider.ts:2-22 | with the DeHackEd pattern, every region starts no later than it ends |
| Paths.Components | src/GZDoomDebugAdapterProxy.ts:600 | the pieces of a path between separators are never empty and never hold a separator |
| Paths.NormalizePlain | src/GZDoomDebugAdapterProxy.ts:617 | normalising segments that are neither '.', '..' nor empty keeps every one of them, in order |
| Paths.ComponentsOfJoin | src/GZDoomDebugAdapterProxy.ts:617 | splitting segments joined with '/' gives back the same segments |
| Paths.ParseRooted | src/GZDoomDebugAdapterProxy.ts:600 | '/' followed by plain segments joined with '/' parses to the absolute path of exactly those segments |
| Paths.RelativeUnderRoot | src/GZDoomDebugAdapterProxy.ts:600 | the path of a file under a root, relative to that root, is the rest of its segments joined with '/' |
| Paths.JoinUnderRoot | src/GZDoomDebugAdapterProxy.ts:617 | joining a root with a relative path of plain segments gives the absolute path of the root's segments followed by them; with RelativeUnderRoot, joining undoes taking the relative path |
| Text.TrimStart | src/doom-wad/Lumps/Lump.ts:13 | the result is a suffix of the input that does not start with white space, and everything dropped is white space |
| Text.TrimEnd | src/doom-wad/Lumps/Lump.ts:13 | the result is a prefix of the input that does not end with white space, and everything dropped is white space |
| Text.Lower | src/GZDoomGame.ts:21 | same length, and every character is lowered one by one |
| Text.Upper | src/doom-wad/Lumps/LumpFactory.ts:17 | same length, and every character is raised one by one |
| Text.IndexOf | src/DebugAdapterProxy.ts:615 | -1 exactly when the pattern occurs nowhere; otherwise the pattern occurs at the result and at no earlier position |
| Text.LastIndexOf | src/wad-provider/WadFileSystemProvider.ts:30 | -1 exactly when the pattern occurs nowhere; otherwise the pattern occurs at the result and at no later position |
| Text.IndexOfChar | src/DebugAdapterProxy.ts:615 | searching for one character finds none exactly when it is absent, and otherwise finds its first occurrence |
| Text.IndexOfExtended | src/DebugAdapterProxy.ts:587-615 | a pattern already found in received data is found at the same position after more data is appended |
| Text.LowerAppend | src/GZDoomGame.ts:21 | lowering distributes over concatenation |
| Text.TrimExtended | src/GZDoomGame.ts:21 | the trimmed form of any string ending with `v` ends with the trimmed `v`, as long as `v` is not all white space |
| Text.DecimalRoundTrip | src/DebugAdapterProxy.ts:574 | reading back the decimal digits written for a count gives the same count |
| Text.Utf8Char | src/DebugAdapterProxy.ts:574 | one character is one to four bytes, exactly one when it is below 0x80, and then that byte is its code |
| Text.Utf8OfAscii | src/DebugAdapterProxy.ts:574 | the UTF-8 form of ASCII text is its character codes, one byte each |
| Text.Utf8Append | src/DebugAdapterProxy.ts:574 | the UTF-8 form of a concatenation is the concatenation of the UTF-8 forms |
| WadFileSystem.ParseWadUri | src/wad-provider/WadFileSystemProvider.ts:21-48 | a refused URI fails with 'Invalid WAD URI format'; an accepted one splits its path into a non-empty WAD path that is a prefix of it and the rest after one skipped character, or '' |
| WadFileSystem.ParseWadUriAccepts | src/wad-provider/WadFileSystemProvider.ts:22-37 | a URI is accepted exactly when its scheme starts with 'wad' and its path holds '.wad' or '.iwad' in any letter case |
| WadFileSystem.WadExtensionWins | src/wad-provider/WadFileSystemProvider.ts:26-34 | when the path holds '.wad' the WAD path ends with it, after its last occurrence |
| WadFileSystem.IwadExtensionFallback | src/wad-provider/WadFileSystemProvider.ts:29-36 | when the path holds no '.wad' but an '.iwad', the WAD path ends after the last '.iwad' |
| WadFileSystem.ParseUri | src/wad-provider/WadFileSystemProvider.ts:21-48 | the loop over the extensions, stopping at the first one found, gives exactly the specified split |
| WadFileSystem.Find | src/wad-provider/WadFileSystemProvider.ts:71 | the index of the first lump with the name, or -1 exactly when no lump has it |
| WadFileSystem.Without | src/wad-provider/WadFileSystemProvider.ts:131 | the filtered list holds only lumps of the list, none with the name, and every lump without the name |
| WadFileSystem.WithoutAppend | src/wad-provider/WadFileSystemProvider.ts:131 | filtering distributes over concatenation, so the order of the kept lumps is preserved |
| WadFileSystem.WithoutNothing | src/wad-provider/WadFileSystemProvider.ts:131 | deleting a name no lump has leaves the list as it was |
| WadFileSystem.WithoutIdempotent | src/wad-provider/WadFileSystemProvider.ts:131 | deleting the same name twice is the same as deleting it once |
| WadFileSystem.EntryNamed | src/wad-provider/WadFileSystemProvider.ts:94-100 | fails with 'Entry not found: ' and the name exactly when no lump has it; otherwise the first lump with that name |
| WadFileSystem.StatOf | src/wad-provider/WadFileSystemProvider.ts:71-82 | fails as EntryNamed does; otherwise a file with times 0 and the entry's length as size |
| WadFileSystem.Listing | src/wad-provider/WadFileSystemProvider.ts:88 | one (name, file) pair per lump, in order |
| WadFileSystem.FindSnapshot | src/wad-provider/WadFileSystemProvider.ts:111 | looking a name up among the lumps or among a snapshot of their values finds the same index |
| WadFileSystem.Persist | src/wad-provider/WadFileSystemProvider.ts:125 | the bytes the WAD saves to, or the error saving throws |
| WadFileSystem.AppendEntry | src/wad-provider/WadFileSystemProvider.ts:118-122 | a name the setter refuses appends nothing and reports the error; otherwise one new empty plain lump with the normalised name is appended and nothing else changes |
| WadFileSystem.WriteEntry | src/wad-provider/WadFileSystemProvider.ts:111-124 | a missing entry without create, or an existing one without overwrite, is refused with nothing changed; otherwise the first entry with the name gets the content and no other lump changes, or a new lump holding it is appended |
| WadFileSystem.RenameEntry | src/wad-provider/WadFileSystemProvider.ts:139 | the first lump with the old name gets the new name and no other lump changes; when none has it the assignment throws and nothing changes |
| WadFileSystem.WriteAndSave | src/wad-provider/WadFileSystemProvider.ts:111-125 | the write as WriteEntry states it, then a refusal is the result, and otherwise the saved bytes of the changed WAD |
| WadFileSystem.DeleteAndSave | src/wad-provider/WadFileSystemProvider.ts:131-132 | the lump list becomes the filtered list and the result is the saved bytes |
| WadFileSystem.RenameAndSave | src/wad-provider/WadFileSystemProvider.ts:139-140 | the rename as RenameEntry states it on the same list, then the refusal or the saved bytes |
| WadFileSystem.RenameTo | src/wad-provider/WadFileSystemProvider.ts:138-140 | a new URI that does not parse fails before any lump changes; otherwise the rename to its entry path, then the saved bytes |
| WadFileSystem.WadFileSystemProvider.constructor | src/wad-provider/WadFileSystemProvider.ts:14 | the cache starts empty |
| WadFileSystem.WadFileSystemProvider.GetWadFile | src/wad-provider/WadFileSystemProvider.ts:50-58 | a cached WAD comes back untouched; otherwise the file is read and loaded, cached on success, and a load failure is reported |
| WadFileSystem.WadFileSystemProvider.Open | src/wad-provider/WadFileSystemProvider.ts:61-70 | the URI is parsed, a bad one leaves the cache alone, and then the WAD is opened as GetWadFile states |
| WadFileSystem.WadFileSystemProvider.Stat | src/wad-provider/WadFileSystemProvider.ts:60-83 | a bad URI fails; an empty entry path is a directory without loading anything; otherwise the WAD is opened and the entry's stat is returned |
| WadFileSystem.WadFileSystemProvider.ReadDirectory | src/wad-provider/WadFileSystemProvider.ts:85-89 | a bad URI fails; otherwise the WAD is opened and its lumps are listed as files |
| WadFileSystem.WadFileSystemProvider.GetEntry | src/wad-provider/WadFileSystemProvider.ts:91-101 | a bad URI fails; otherwise the WAD is opened and the first lump with the entry name is returned, or 'Entry not found' |
| WadFileSystem.WadFileSystemProvider.ReadFile | src/wad-provider/WadFileSystemProvider.ts:103-106 | the content of the entry GetEntry finds, with its errors |
| WadFileSystem.WadFileSystemProvider.WriteFile | src/wad-provider/WadFileSystemProvider.ts:108-126 | a bad URI or a WAD that does not load fails; otherwise the result is the refusal or the saved bytes, and the lumps of a WAD already cached change as WriteEntry states |
| WadFileSystem.WadFileSystemProvider.Delete | src/wad-provider/WadFileSystemProvider.ts:128-133 | a bad URI or a WAD that does not load fails; otherwise the result is the saved bytes, and a WAD already cached loses every lump with the name, keeping the others in order |
| WadFileSystem.WadFileSystemProvider.Rename | src/wad-provider/WadFileSystemProvider.ts:135-141 | a bad old URI or a WAD that does not load fails, and so does a bad new URI; otherwise the result is the refusal or the saved bytes, and in a WAD already cached the lump is renamed as RenameEntry states |
| WadFileSystem.WadFileSystemProvider.CreateDirectory | src/wad-provider/WadFileSystemProvider.ts:143-145 | always fails with 'Creating directories in WAD files is not supported' |
| WadFileSystem.LoadedOnce | src/wad-provider/WadFileSystemProvider.ts:50-58 | after a successful first load, a second call with the same path returns the same WAD and the cache holds it under that path |


## Left out

- Text.Lower: lowers only the ASCII letters A–Z. JavaScript's `toLowerCase` maps all of Unicode. CustomSets.ICaseEqual, Game.IsBuiltinPK3File, Launcher.GamePIDs, Lumps.KindFor and WadFileSystem.ParseWadUri inherit this, because they compare or search through it. In `parseWadUri` the lowering can also change the path's length (U+0130 lowers to two UTF-16 code units), which shifts the index that `substring` then applies to the original path; the model's `Lower` keeps every length, so that shift is not captured. The full Unicode case tables are outside the model.
- Text.Upper: raises only a–z, for the same reason. `createFromName` compares with it.
- Transport.NumberValue: reads only decimal digits with white space around them (white space alone reads as 0). Signs, fractions, exponents, hexadecimal and `Infinity`, which `Number` also accepts, read as no length. The sender writes only plain decimal counts.
- Transport.Latin1: the header is decoded one character per byte. The source decodes it as UTF-8 (`src/DebugAdapterProxy.ts` line 617). The two agree on the ASCII headers the sender writes (`Transport.Latin1OfAscii`); non-ASCII header bytes are not modelled.
- Paths.Render: drops a trailing separator. Node's `path.join` keeps one when its last argument ends with a separator.
- Paths.Relative: between an absolute and a relative path, returns `to` unchanged. Node would first resolve the relative one against the process's working directory, which is outside the model.
- Paths.Parse: POSIX paths only. Windows drive letters, backslashes and UNC prefixes are not modelled.
- Transport.Drain: `JSON.parse` is a parameter, a function from body bytes to a message or to nothing for invalid JSON. `JSON.stringify` is a parameter too. The framing round trip is proved for any such pair.
- ProxyBase.ClientPathToDebugger: `path2uri` and `uri2path` are parameters. Their URL percent-encoding is not modelled.
- The connection timeout that `start` arms is not modelled: its 'Cannot connect' output and its call to `stop` (`src/DebugAdapterProxy.ts` lines 458-461). The socket's creation, its event wiring and `destroy` are not modelled either. Only the close and error decision is modelled (`ProxyBase.OnSocketEnd`).
- Logging is not modelled: pino, the console stream, colouring, `getLogObj` and log-file paths. It is formatting and I/O.
- GZDoomProxy.Proxy.ScanFinished: `scanProjectDirectoryForFiles` calls the host's file search. Its result, the scanned path set, is an input.
- Launcher: process lookup, `lsof`, `spawn`, `process.kill`, port probes, the clock and cancellation are oracle observations. The waits assume that the clock advances between two readings (`Launcher.Ticking`).
- Launcher.DebugLauncherService.WaitForPort: the `wait-port` library is replaced by polling the oracle's probe until the deadline.
- `cancellableWindow`, `ensureGameRunning`, the status bar, progress UI and the extension's registration are not modelled (`src/activateGZDoomDebug.ts` lines 16-60 and 84-161). They are user interface and host API.
- Activation.CreateDebugAdapterDescriptor: the proxy it builds is not constructed. The source passes two arguments to a one-argument constructor. The proxy is modelled from its own file.
- Textmaps.Parse: starts from a token list. The lexer is a parameter; it is a thin wrapper over a tokenising library. Float literals are not tokens of this model, and neither is `Number.toString` of them. Integers are exact here and `VNum` is written with `IntToString`, while the source parses them with `parseInt` into doubles, which lose precision above 2^53, and writes them with `toString`, which prints the exponent form (`1e+21`) from 10^21 up.
- WadFileSystem.WadFileSystemProvider.WriteFile: the bytes `wad.save()` produces are returned instead of being written with `fs.writeFile`. The same holds for Delete and Rename.
- WadFileSystem.WadFileSystemProvider.GetWadFile: `readFile(p)` stands for the whole `ArrayBuffer` that `getWadFile` hands to `load` (`buffer.buffer`, src/wad-provider/WadFileSystemProvider.ts lines 53-54). For a file under 4 KiB Node returns a slice of its shared 8 KiB pool, so that buffer is the pool with the file at a non-zero offset, and the reader starts at offset 0; what such a load reads is not captured. The errors `readFileSync` can throw (a missing or unreadable file) are not modelled.
- Emitters.Emitter.Fire: listeners are modelled only by whether they throw. A listener that subscribes or disposes during `fire` reassigns the arrays `fire` walks by index (src/IDEInterface.ts lines 177, 185 and 222-237), so listeners skipped or added in the middle of a fire are not captured.
- WadFileSystem.WadFileSystemProvider.WriteFile: the lump-level effect is stated for a WAD that was already cached before the call. For a WAD loaded by the call, only the result is stated. The same holds for Delete and Rename.
- WadFileSystem.ParseWadUri: the source's `wadPath.length === 0` check can never fail, because a WAD path ends with an extension of at least four characters. The model has no branch for it.
- `CreateWadUri` and `watch`/`onDidChangeFile` are not modelled. The first is URL encoding; the second does nothing.
- Async/await ordering: each handler is modelled as one sequential step that runs to completion.
- `src/ACSParser.ts`, the PK3 file system, the window manager, and the extension's activation and re-export files are not part of this model.
