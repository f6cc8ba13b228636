# CrossLink relay tunnel and streaming agent: a verified model

CrossLink lets a phone chat with an agent behind NAT. The agent keeps a WebSocket to a cloud relay; the relay turns phone
HTTP requests into messages on that socket and the agent's answers back into HTTP responses. Chat answers are streams of
server-sent events that pass through the agent's writer, the relay's channels and two re-framings before the phone parses
them. This project models that path and the state machines around it, and proves what they guarantee. The command
`dafny verify dfyconfig.toml` checks it.

## How it is organised

- `Common`, `Base64`, `Utf8`: lists, one-item-at-a-time machines, and the two encodings the byte path goes through.
- `Sse`: how an event is rendered, and the phone's reader (UTF-8, lines, events) over a stream cut anywhere.
- `ResponseWriter` (with `Wire`): the agent's HTTP response writer that cuts handler output into relay messages.
- `RelayHandlers`: what a phone gets for the messages, closes, timeouts and disconnects its handler sees.
- `Hub`, `HubRuns`, `HubGuarantees`: the relay's four maps and channels, whole runs of it, and what holds in every run.
- `Bridge` (with `Recovery` and `Tunnel`), `Backoff`: the agent's end, session recovery after a reconnect, its messages as
  the relay's steps, and retry waits.
- `ChatHandler` (with `ChatScreen`), `EndToEnd`: two concurrent writers on the agent, what the phone makes of their events,
  and the whole path to its parser and screen.
- `ClaudeParser`, `ClaudeSession`, `ClaudeGuarantees` (`ClaudeTurns`, `ClaudeAnswers`, `ClaudeTools`), `Permission`: the Claude event loop,
  its channels, tool inputs and runs, and the permission wait, alone and with others (`PermissionRuns`).
- `IcePeer`, `ChatHistory`, `Ownership`, `Discover` (with `HubLock`): candidate queueing, the session index, agent
  ownership, discovery and what its crash leaves behind.

Objects that the program changes in place are classes whose methods are proved against functions on plain values; the
guarantees are lemmas about those functions over all inputs, runs or interleavings. A lock-protected section of the relay
or of the peer is one step. Random ids and tokens are taken as fresh.

## Where the code does less than it says

- A disconnect fails the pending requests of all agents, not only its own (`HubGuarantees.AnotherAgentsDisconnect`).
- The comment in `dispatchResponse` says a closed channel drops the message; a Go send on a closed channel panics.
  `HubGuarantees.SendAfterLookup` says exactly when the channel is closed between lookup and send.
- Any block behind a tool block runs that tool again (`ClaudeTools.OncePerToolBlock` gives the exact condition for one run
  each, `ClaudeTools.RunsOfOneTool` the number of runs on any stream).
- Two runs of one tool ask for permission under one id, and at most one of them can be answered
  (`PermissionRuns.SecondAskShadows`; `PermissionRuns.ReachableUnlessOverlap` is the exact condition).
- A message end without a reason, such as the `message_stop` of the turn before, ends a new turn at once when the last named
  reason was not tool use (`ClaudeTurns.LateStopLosesTurn`), and a turn without a closing end before the next chat call is
  never closed (`ClaudeTurns.EveryRun`).
- Connecting from a session without an online agent crashes the discovery handler (`Discover.CrashAfterDisconnect`), and
  that freezes the whole hub (`HubLock.CrashFreezesHub`).
- Deploy tokens are one-time, but they take agents over from other users (`Ownership.DeployTakesOver`).

Three more are latent: the code does not guard against them, but nothing in the repository is shown to bring them about.

- The peer does not check that an offer names its sender: candidates would then join a queue nobody flushes
  (`IcePeer.EmptyWhileNamed`). The repository's own signaling server refuses empty ids (poc/signal/main.go:116-120, 177).
- Endpoints other than chat would lose the body of a handler that flushes (`RelayHandlers.PlainTransparent`). Of the
  handlers behind poc/agent/server.go:84-95 only the chat handler flushes.
- A save and a delete of one session that overlap would leave the index wrong if the platform completed the later store
  operation first (`ChatHistory.DeleteInsideSave`); completed in order they never do (`ChatHistory.OrderedHalvesAgree`).

## Model

| member | source | states |
|---|---|---|
| EndToEnd.PhoneSeesEveryEvent | poc/relay/main.go:671-730 | in every relay run, a chat whose messages were not dropped reaches the phone with status 200 and is parsed into exactly the written events, however the bytes are cut, with late callback messages ignored |
| EndToEnd.PhoneSeesOnlyRealEvents | poc/relay/main.go:439-473 | whatever is lost, by writes to a dead connection before a reconnect, full queues, timeouts or disconnects, the phone gets a failure or a stream that parses into an in-order selection of whole events; a stream exactly when the opening message was first to arrive |
| EndToEnd.SentIsFrames | poc/agent/relay_bridge.go:405-484 | events written after the response has ended still travel, one message each, behind the end |
| EndToEnd.PhoneSeesBothWriters | poc/agent/server.go:293-382 | end to end, token frames with their indices and one final frame, and all callback events, each complete and in order |
| EndToEnd.PhoneShowsBothWriters | app/lib/screens/chat_screen.dart:252-398 | read by the phone's own event names: every token with its index, then the end with the number of tokens or the failure; and every backend event as what it was, all complete and in order |
| EndToEnd.StreamErrorShown | poc/relay/main.go:671-730 | an error message behind whole events reaches the phone as one chat-err event behind them |
| ChatScreen.OwnShown | app/lib/models/protocol.dart:6-20 | the handler's own frames, in any interleaving, are read as the tokens 0..n-1 and then the right end |
| ChatScreen.CallbackShown | poc/agent/server.go:295-330 | the five kinds of backend events are each read as what they were, in order, and other kinds not at all |
| EndToEnd.OutputOfEvents | poc/agent/relay_bridge.go:405-462 | a chat handler's events travel as one opening message, one message per event, and one end |
| Sse.ParseStream | app/lib/services/http_service.dart:274-308 | the phone's loop gives, for any cutting of the stream, the events of its decoded text, or an error if that is not UTF-8 |
| Sse.RoundTrip | app/lib/services/http_service.dart:274-308 | rendered events are read back unchanged if and only if each has a trimmed one-line type and trimmed, non-empty one-line data |
| Sse.BytesRoundTrip | poc/agent/server.go:666-683 | the same through the bytes on the wire, which are always complete UTF-8 |
| Sse.ReadDataLines | app/lib/services/http_service.dart:283-288 | several data lines are read as their concatenation |
| Sse.SplitCrLf | app/lib/services/http_service.dart:275-277 | a line may also end with CR LF |
| Sse.TrimPadded | app/lib/services/http_service.dart:285-290 | trimming removes the white space around a text and nothing else |
| Utf8.FeedText | app/lib/services/http_service.dart:275-277 | decoding byte by byte gives back any text, with nothing pending |
| Utf8.Strict | app/lib/services/http_service.dart:275-277 | bytes that the decoder accepts are the encoding of the text it gives |
| Base64.DecodeEncode | poc/relay/main.go:663-668 | decoding inverts encoding, and only no bytes encode to the empty text |
| Base64.Vectors | poc/relay/main.go:663-668 | the test vectors of section 10 of RFC 4648 |
| Base64.Alphabet | poc/relay/main.go:663-668 | the standard alphabet of RFC 4648, in order |
| ResponseWriter.RelayResponseWriter.WriteHeader | poc/agent/relay_bridge.go:390-395 | only the first non-zero status counts |
| ResponseWriter.RelayResponseWriter.Write | poc/agent/relay_bridge.go:397-403 | bytes are appended to the buffer and an unset status becomes 200 |
| ResponseWriter.RelayResponseWriter.Flush | poc/agent/relay_bridge.go:407-444 | opens the stream once and sends a non-empty buffer as one piece |
| ResponseWriter.RelayResponseWriter.Finish | poc/agent/relay_bridge.go:448-484 | ends a stream, or sends one whole response |
| ResponseWriter.Framing | poc/agent/relay_bridge.go:390-484 | for every sequence of calls: one whole response or opening, non-empty pieces, end; the first settled status; payload equal to all bytes written |
| ResponseWriter.BodyKept | poc/agent/relay_bridge.go:300-303 | after an unflushed response the buffer still holds the whole body |
| ResponseWriter.LateCalls | poc/agent/relay_bridge.go:397-444 | calls after the end only add messages behind it |
| RelayHandlers.StreamSSE | poc/relay/main.go:671-730 | body and cancellation are those of the signals up to the first that ends the stream |
| RelayHandlers.WriteNonStreamingResponse | poc/relay/main.go:646-669 | status, or 200, and the decoded body |
| RelayHandlers.ChatCancelled | poc/relay/main.go:443-461 | for every sequence of signals: the agent is told to cancel exactly when the phone leaves before any answer, or leaves or times out before the stream has ended; only a first timeout takes the request out of the pending map |
| RelayHandlers.Transparent | poc/relay/main.go:439-473 | for all handler calls the phone gets the handler's status and exactly its bytes |
| RelayHandlers.PlainTransparent | poc/relay/main.go:646-669 | the same for the other endpoints, with an empty body exactly for handlers that flush |
| Hub.RelayHub.RegisterAgent | poc/relay/main.go:132-152 | replaces the agent and its token entry, hangs up a different old connection |
| Hub.RelayHub.UnregisterAgent | poc/relay/main.go:154-183 | a replaced connection changes nothing; the registered one takes its agent away with all tokens, sessions and pending requests, and all other agents stay |
| HubGuarantees.DisconnectUnregisters | poc/relay/main.go:154-183 | a disconnect in a run leaves the hub exactly as UnregisterAgent does |
| Hub.RelayHub.UnregisterAgentByPeer | poc/relay/main.go:185-211 | removes agent, tokens and sessions and closes every pending channel once |
| Hub.RelayHub.FailAllPending | poc/relay/main.go:176-180 | the delete loop closes exactly the pending channels, none twice |
| Hub.RelayHub.BindSession | poc/relay/main.go:213-218 | maps the session to the peer |
| HubGuarantees.LookupFindsLast | poc/relay/main.go:220-238 | in every run a pair or session token finds exactly the agent last entered under it, unless that has since been removed or has registered under another pair token |
| HubGuarantees.AgentsAreHistory | poc/relay/main.go:132-152 | in every run a peer is registered exactly as by its last registration, with that pair token, connection and visibility, unless removed since |
| Hub.RelayHub.DispatchResponse | poc/relay/main.go:240-262 | appends to an open channel with room, drops otherwise, ends the request on a terminal message |
| Hub.RelayHub.ForwardToAgent | poc/relay/main.go:264-293 | enters the request, and takes it out again when the agent cannot be written to |
| Hub.RelayHub.ForgetRequest | poc/relay/main.go:385-389 | a timeout takes the request out of the pending map |
| Hub.RelayHub.Receive | poc/relay/main.go:378-384 | next message in order, or the news that the channel is closed and drained |
| HubRuns.RunKeeps | poc/relay/main.go:132-293 | the invariant over agents, tokens, sessions, sockets, requests, channels and delivery holds in every interleaving |
| HubGuarantees.IndexAgreement | poc/relay/main.go:132-218 | pair tokens and sessions always lead to a registered agent, which carries that token; one token per peer |
| HubGuarantees.StaleDisconnect | poc/relay/main.go:158-160 | a disconnect of a replaced connection changes nothing |
| HubGuarantees.BindingNeedsRegistration | poc/relay/main.go:213-218 | a bind keeps the session index right if and only if the peer is registered |
| HubGuarantees.RemovalFailsEveryRequest | poc/relay/main.go:158-180 | when a registered connection disconnects, every pending request ends, its channel is closed, and only that agent goes |
| HubGuarantees.AnotherAgentsDisconnect | poc/relay/main.go:176-180 | so one agent's disconnect fails a request to another agent that stays registered |
| HubGuarantees.AnotherAgentsDisconnectExample | poc/relay/main.go:176-180 | the shortest run that does it |
| HubGuarantees.ReplacementKeepsRequests | poc/relay/main.go:136-149 | a reconnect leaves pending requests and channels as they were |
| HubGuarantees.StepOfRequest | poc/relay/main.go:240-293 | a pending request leaves exactly by write failure, terminal message, timeout or agent removal; histories only grow |
| HubGuarantees.NeverReturns | poc/relay/main.go:240-293 | a request that has left never returns and keeps its reason |
| HubGuarantees.EntersOnce | poc/relay/main.go:264-283 | a request id enters the pending map at most once in a run |
| HubGuarantees.ChannelDiscipline | poc/relay/main.go:176-180 | pending channels are open and distinct; a channel is closed at most once, and exactly for requests ended by a removal |
| HubGuarantees.SendAfterLookup | poc/relay/main.go:241-255 | the channel looked up is closed by the time of the send if and only if an agent was removed while the request was pending |
| HubGuarantees.SendAfterLookupExample | poc/relay/main.go:241-255 | the shortest run that closes it |
| HubGuarantees.Delivery | poc/relay/main.go:240-293 | at most 64 queued; reads are an in-order selection up to the first terminal message, a prefix without drops, and all of it once finished and drained |
| Bridge.RelayBridge.Introduce | poc/agent/relay_bridge.go:178-207 | writes the registration and every known session in order, or a prefix when a write fails |
| Bridge.RelayBridge.HandleRequest | poc/agent/relay_bridge.go:261-304 | sends the framed output under the request's id, going on after failed writes, and binds and remembers the session of a successful pairing; a short token crashes the agent |
| Tunnel.AnswerReachesItsRequest | poc/agent/relay_bridge.go:397-484 | handled by the relay, what the bridge writes for a request reaches exactly that request, complete but for what was lost; no other request sees anything, and a pairing's session leads to the agent |
| Tunnel.RefusalReachesItsRequest | poc/agent/relay_bridge.go:275-284 | the 400 of a malformed request reaches that request |
| Tunnel.IntroductionReaches | poc/agent/relay_bridge.go:178-207 | after an introduction the agent is registered with the visibility it asked for, or private, and every known session leads to it |
| Bridge.KeptIsSelection | poc/agent/relay_bridge.go:366-371 | what gets through when write errors are ignored is an in-order selection of the response |
| Bridge.RelayBridge.BindSession | poc/agent/relay_bridge.go:342-364 | remembers a token only if it was found and its message could be written; then its log line fails for fewer than sixteen characters |
| Bridge.RelayBridge.Cancel | poc/agent/relay_bridge.go:247-253 | cancels a running request once |
| Bridge.PairingBindsItsReply | poc/agent/relay_bridge.go:300-303 | an unflushed handler binds a session exactly for the pairing path, a status of 200 and a token in the bytes it wrote, and binds that token |
| Recovery.ReconnectRecovers | poc/agent/relay_bridge.go:178-204 | once the introduction is handled, every known session and the pair token lead to the new connection, wherever the old connection's disconnect and other peers' steps fall |
| Backoff.ConnectSignal | poc/peer/peer.go:198-232 | dials until the first success or the limit, with the exact number of dials and total wait, and its bound |
| Backoff.TotalSleepClosed | poc/peer/peer.go:226-229 | k failed dials wait 2^k - 1 seconds for k up to 6, and 63 + 60(k - 6) beyond |
| Backoff.Reconnect | poc/agent/relay_bridge.go:112-139 | each wait is the power of two of the attempts since the last successful dial, capped at 30 |
| ChatHandler.SseWriter.WriteEvent | poc/agent/server.go:666-683 | one event is one write of its rendered bytes and one flush |
| ChatHandler.HandleChat | poc/agent/server.go:350-380 | the writer receives exactly the interleaving of token frames, callback events and the final frame |
| ChatHandler.Interleaving | poc/agent/server.go:293-382 | in every interleaving own frames are tokens 0..n-1 and one final frame, and the rest are the callback's events in order |
| ChatHandler.KindsStayApart | poc/agent/server.go:295-310 | event kinds do not collide on the wire, nor with the handler's own frames |
| ClaudeParser.Parser.ParseStreamEvent | poc/agent/claude/parser.go:117-193 | one stream event to one parse event; only a tool start moves the carried tool |
| ClaudeParser.Parser.Scan | poc/agent/claude/parser.go:55-113 | the scanner loop over all lines up to one that is too long, with the carried tool |
| ClaudeSession.Session.StartTurn | poc/agent/claude/session.go:103-107 | new channels and empty tool buffers for a turn |
| ClaudeSession.Session.HandleEvent | poc/agent/claude/session.go:251-324 | one event's effect; never closes a closed channel nor fills the error channel twice |
| ClaudeSession.Session.EventLoop | poc/agent/claude/session.go:241-325 | a whole run of the loop with chat calls in between, and its deferred closes |
| ClaudeSession.RunKeepsDiscipline | poc/agent/claude/session.go:241-325 | for any arrivals each channel is closed at most once and each error channel gets at most one value |
| ClaudeTurns.EveryRun | poc/agent/claude/session.go:241-325 | for any arrivals, with calls at any time: a turn gets exactly the text before the first message end whose reason, its own or the one carried over, is not "tool_use", one close and one error value; without such an end before the next call it is never closed, and the deferred closes reach only the last turn |
| ClaudeAnswers.LinesToTurn | poc/agent/claude/session.go:258-325 | from Claude's lines to the reader: the tokens are exactly the text deltas before the first message end whose last named reason is not tool use, in order; closed exactly if there is one; one error value, a failure exactly if a result line reported one in time |
| ClaudeAnswers.LinesToCallback | poc/agent/claude/session.go:255-291 | the callback is offered all thinking and all tool starts in order, and for every launch the same input that the tool gets |
| ClaudeTurns.AnyArrivals | poc/agent/claude/session.go:103-107 | every list of arrivals, overlapping calls included, is a list of calls with their events |
| ClaudeTurns.TurnsAreSeparate | poc/agent/claude/session.go:103-145 | in every run exactly those turns are complete, with all text, one close and one error value, whose events have a closing end and no text behind one before the next call |
| ClaudeTurns.TurnsOnTheirOwn | poc/agent/claude/session.go:299-304 | when each turn's first message end names its reason, each turn's completeness depends on its own events alone |
| ClaudeTurns.LateStop | poc/agent/claude/session.go:293-316 | a late message_stop spares the new turn if and only if the last stop was for tool use |
| ClaudeTurns.LateStopLosesTurn | poc/agent/claude/session.go:299-316 | after any arrivals whose last named stop was not for tool use, a turn that begins with a message end without a reason stays empty, whatever Claude says in it |
| ClaudeTurns.LateStopExample | poc/agent/claude/session.go:293-316 | the shortest run that does it |
| ClaudeTools.InStep | poc/agent/claude/parser.go:60-113 | scanning first and handling later equals handling event by event |
| ClaudeTools.RunsAreStops | poc/agent/claude/session.go:281-291 | on any stream a tool is launched as often as a block stops while it is current |
| ClaudeTools.RunsOfOneTool | poc/agent/claude/parser.go:163-169 | a tool started once runs once per block stop before the next tool start or turn end |
| ClaudeTools.WholeBlocks | poc/agent/claude/parser.go:117-169 | every stream with alternating block starts and stops is a list of whole blocks of any kinds, with any other events inside and between them |
| ClaudeTools.LaunchesOfBlocks | poc/agent/claude/session.go:268-291 | on every such stream each launch carries exactly the parts since its tool's start, in order, and a stop carried over from an earlier turn launches nothing unless stray parts came first |
| ClaudeTools.OncePerToolBlock | poc/agent/claude/parser.go:163-169 | the session launches every tool block exactly once, and nothing else, if and only if no other block follows a tool block or a stray input part in the turn |
| ClaudeTools.RelaunchExample | poc/agent/claude/parser.go:163-169 | a text block behind a tool block launches the tool a second time |
| Permission.Session.RequestPermission | poc/agent/claude/session.go:375-423 | decided by the first decisive signal; while undecided the registry names the channel waited on, afterwards it does not |
| PermissionRuns.AnswerReaches | poc/agent/claude/session.go:364-371 | in every run of overlapping calls an answer reaches exactly the call that asked last under its id, and only until some call under that id has ended |
| PermissionRuns.ShadowedForever | poc/agent/claude/session.go:388-415 | a call no answer can reach is never answered again; it can only run out |
| PermissionRuns.SecondAskShadows | poc/agent/claude/session.go:388-415 | a second call under the same id puts the first out of reach, and when the first ends the second is out of reach too |
| PermissionRuns.SecondAskExample | poc/agent/claude/session.go:388-415 | the shortest run that does it |
| PermissionRuns.ReachableUnlessOverlap | poc/agent/claude/session.go:388-415 | every waiting call can be answered at all times if and only if no two wait under one id |
| PermissionRuns.EachCallDecides | poc/agent/claude/session.go:375-423 | in every run of overlapping calls each one waits, is allowed or is denied exactly as the signals that reached it decide |
| Permission.Session.ExecuteAndRespond | poc/agent/claude/session.go:428-464 | the body runs iff permission is not needed or granted; exactly one result goes to Claude and the same to the callback |
| Permission.FirstDecisive | poc/agent/claude/session.go:395-422 | allowed iff some signal is "allow", denied iff some signal is "abort", the session's end or a timeout, each with only other answers before it; open iff there are only other answers |
| Permission.PausesDecideNothing | poc/agent/claude/session.go:411-419 | any number of answers other than "allow" and "abort" leaves the request undecided |
| Permission.PausedThenDecided | poc/agent/claude/session.go:395-422 | after them "allow" still allows, and "abort", the session's end and a timeout each deny |
| Permission.DangerousTools | poc/agent/claude/session.go:335-342 | exactly Bash, Write and Edit ask first |
| IcePeer.Peer.OnICECandidate | poc/peer/peer.go:333-350 | queued without a known remote side, else sent |
| IcePeer.Peer.FlushPending | poc/peer/peer.go:403-413 | takes the queue at once and sends it in order while new candidates keep coming, losing none |
| IcePeer.Peer.HandleOffer | poc/peer/peer.go:356-414 | which candidates are sent and queued after an offer, on success and on each failure |
| IcePeer.Peer.HandleAnswer | poc/peer/peer.go:416-441 | the same after an answer |
| IcePeer.RunConserves | poc/peer/peer.go:333-413 | in every interleaving candidates produced equal those sent, queued and taken for flushing |
| IcePeer.FlushedStaysEmpty | poc/peer/peer.go:416-441 | after a flush has taken the queue it stays empty, and at its end every candidate was sent exactly once |
| IcePeer.EmptyWhileNamed | poc/peer/peer.go:341-344 | with the remote description set, in every run the queue stays empty after a flush has taken it if and only if no candidate is produced while the remote peer has no name |
| ChatHistory.ChatHistoryService.Save | app/lib/services/chat_history_service.dart:122-126 | stamps and stores the session and its index entry, keeping agreement |
| ChatHistory.AgreementOfHalves | app/lib/services/chat_history_service.dart:122-132 | for saves and deletes that overlap at their awaits: no duplicates ever, and agreement if and only if each session's last document half and last entry half left the same session |
| ChatHistory.OrderedHalvesAgree | app/lib/services/chat_history_service.dart:122-132 | when second halves complete in the order of the first ones, index and documents agree, however the operations overlap |
| ChatHistory.DeleteInsideSave | app/lib/services/chat_history_service.dart:122-132 | a later delete that completes in the gap of a save leaves an entry without a session |
| ChatHistory.HalvesMakeWholes | app/lib/services/chat_history_service.dart:122-132 | with nothing in the gap the halves make up the whole operation |
| ChatHistory.ChatHistoryService.Delete | app/lib/services/chat_history_service.dart:129-132 | removes document and entry, keeping agreement |
| ChatHistory.ChatHistoryService.UpdateIndex | app/lib/services/chat_history_service.dart:168-187 | one entry per session, also from a missing or unreadable index |
| ChatHistory.ChatHistoryService.RemoveFromIndex | app/lib/services/chat_history_service.dart:189-197 | drops a session's entries, leaves an unreadable index alone |
| ChatHistory.ChatHistoryService.ListSessions | app/lib/services/chat_history_service.dart:95-108 | exactly the device's stored sessions, once each, latest first |
| ChatHistory.AlwaysAgree | app/lib/services/chat_history_service.dart:122-197 | after any saves and deletes the index lists each stored session once, with its device and time, and nothing else |
| ChatHistory.LastOperationWins | app/lib/services/chat_history_service.dart:111-132 | a session loads as last saved unless deleted since |
| ChatHistory.KeysAreDistinct | app/lib/services/chat_history_service.dart:81-92 | session keys are distinct and never the index key |
| Ownership.OwnershipManager.ClaimAgent | poc/relay/auth.go:302-315 | refuses another user's agent, repeats are harmless, the claim stands even if saving fails |
| Ownership.OwnershipManager.UnclaimAgent | poc/relay/auth.go:317-331 | only the owner or an administrator releases an agent |
| Ownership.OwnershipManager.ClaimByDeployToken | poc/relay/auth.go:437-453 | consumes the token and claims the agent for its user |
| Ownership.TokensAreUsedOnce | poc/relay/auth.go:425-453 | over every run each deploy token claims at most one agent, and no recorded owner is empty |
| Ownership.OwnerChanges | poc/relay/auth.go:302-331 | an owned agent keeps its owner unless an authorised unclaim or a deploy-token claim of it happens |
| Ownership.UnclaimFrees | poc/relay/auth.go:317-331 | in every reachable state an unclaim by the owner or an administrator frees the agent for anybody; by anyone else it changes nothing |
| Ownership.DeployTakesOver | poc/relay/auth.go:441-449 | in every reachable state a deploy token moves another user's agent, which a claim leaves alone |
| Ownership.DeployTakesOverExample | poc/relay/auth.go:441-449 | the shortest run that does it |
| Discover.DiscoverHandlers.HandleDiscoverAgents | poc/relay/discover.go:215-256 | lists exactly the agents the rules show to this requester, each once |
| Discover.DiscoverHandlers.HandleDiscoverConnect | poc/relay/discover.go:287-379 | outcome, created request and claim for every case |
| Discover.ListingIsHonest | poc/relay/discover.go:225-232 | over every ownership run canRequest holds iff connecting creates a pending request; own agents are approved; unlisted ones stay private unless unclaimed |
| Discover.WhoAsks | poc/relay/discover.go:205-212 | the requester is the owner of its session's online agent, else the owner recorded for the session, else nobody |
| Discover.WhatIsListed | poc/relay/discover.go:215-232 | an agent is listed iff it is the requester's own or public, by its own visibility or else the recorded one; and what the entry says |
| Discover.WhatConnectDoes | poc/relay/discover.go:316-379 | offline, approved, conflict, pending and private, each exactly when |
| Discover.EmptyOwnersWouldBreakIt | poc/relay/discover.go:350-370 | exactly which states would break that: an empty owner, an ownerless requester, a public agent |
| Discover.UnboundRequesterCrashes | poc/relay/discover.go:301-308 | the nil dereference happens iff some agent is online and the requester's session has none |
| Discover.CrashAfterDisconnect | poc/relay/discover.go:301-308 | in every reachable state, once a session's agent has disconnected while another stays online, any connect request of that session crashes |
| Discover.CrashExample | poc/relay/discover.go:301-308 | the shortest run that does it |
| HubLock.CrashFreezesHub | poc/relay/discover.go:302-309 | the crash leaves the read lock held: whatever happens later, agents, tokens, sessions and pending requests never change again |
| Discover.ConnectingClaims | poc/relay/discover.go:328-347 | connecting to an unclaimed agent claims it for the requester, else for the device by its header, else for "Unknown Device" |

## Left out

- Hub.RelayHub.DispatchResponse: the lookup and the send are one step here, while the code releases the lock in between; HubGuarantees.SendAfterLookup covers the gap.
- Hub.RelayHub.Receive: a receive that would block returns nothing instead of waiting.
- Hub.RelayHub.BindSession: the panic of its log line on a token shorter than sixteen characters is part of the step in HubRuns.Next.
- Recovery.ReconnectRecovers: once a connection is hung up its messages have no effect here; in the code a register message that the old reader had already read can still replace, and hang up, the new connection.
- ChatHandler.HandleChat: the handler's last flush and the end of the response are steps of their own here; in the code they run outside the writer's mutex, so a callback's write can overlap them and the same buffer can go out twice.
- RelayHandlers.Transparent: statuses that carry no body (1xx, 204, 304), and invalid ones, on which the HTTP server of the relay drops the body or panics.
- Sse.ParseStream: for bytes that are not UTF-8 it only reports the failure; how many earlier events of the same piece still get out is not stated. A byte order mark at the start of the stream is not skipped.
- RelayHandlers.StreamSSE: response headers, and HTTP writers that cannot flush.
- RelayHandlers.WriteNonStreamingResponse: the response headers copied from the message.
- ClaudeParser.Parser.ParseStreamEvent: token counts, session id and model of an event.
- ClaudeSession.Session.HandleEvent: token counts, session id and model are not kept; a blocking send on a full token channel is taken as delivered once the reader catches up; a tool_input event is not offered when the input is not valid JSON, but the tool is launched all the same.
- PermissionRuns.AnswerReaches: an answer and its receipt are one step, so an answer that loaded a channel just before a pause replaced it is not modelled, nor is clearing the registry on a session switch.
- ChatHistory.ChatHistoryService.Save: one save at a time; overlaps are the subject of ChatHistory.AgreementOfHalves and ChatHistory.OrderedHalvesAgree.
- ChatHistory.ChatHistoryService.Delete: one delete at a time, likewise.
- ChatHistory.ChatHistoryService.ListSessions: the order of sessions with the same time is open, as the library's sort leaves it.
- Bridge.RelayBridge.HandleRequest: requests run one at a time on the bridge; only their framing and bookkeeping are modelled.
- Discover.DiscoverHandlers.HandleDiscoverAgents: connection times and metadata.
- Discover.DiscoverHandlers.HandleDiscoverConnect: the code reads hub and records in several locked sections; here they are one state. The lock a crash leaves held is modelled in HubLock.
- JSON, HTTP headers, WebSocket, WebRTC and subprocess calls, and file writes: only their effects appear, as messages, flags or parameters.
- Wall-clock time: timeouts are steps that may happen at any moment.
- Process restart by the crash watcher, and the reuse of channel fields after the event loop has ended.
- Approving and rejecting connection requests, the dashboard, users and cookies, downloads, pairing stores and the agent pool: map upkeep that would add only easy members.
- The Flutter screens, the direct WebRTC chat variant and the small demo programs.
