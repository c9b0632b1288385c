# Verified model of the tunnel broker, its clients and its proxy registry

The server lets a *provider* (a client that exposes a local TCP port) hold one
WebSocket to the broker, over which any number of *consumers* are multiplexed:
the broker hands out a session id, sends `attach`, waits for `attached`, relays
binary messages prefixed with the session id both ways and sends `detach`. The
client program manages rows of providers and consumers and a registry of forward
tunnels; the server also keeps a list of configured proxies and the routes that
serve them, and checks signed requests.

Dafny 4.11 project; `dafny verify dfyconfig.toml` checks all of it.

## How the model is laid out

| files | what they model |
|---|---|
| `Base`, `Text`, `Frames` | option and result types, byte strings, string operations, the 16-byte session prefix |
| `Sessions`, `Channels`, `ChannelProofs` | one provider connection as a labelled transition system: broker side, provider side and two message logs; the invariant of one session and its preservation by every step |
| `BrokerRuns`, `TunnelGuarantees`, `AttachCalls` | any number of channels, handlers and attach calls, looked up by id; the theorems over every run, and which channel an attach call gets |
| `TunnelLimits` | what does not hold: runs that show it, and the exact condition for each |
| `TunnelEndings` | how channels begin and sessions end: the reply, the detaches, what a detach does at the provider, that attaches and acks are answered; runs of whole sessions |
| `BrokerObjects`, `ProviderObjects` | the two processes as objects with maps, buffers and loops; a method of a channel or of the provider is one atomic section and takes the transition system exactly along the step that models it (`Drain`, `RemoveChannel` and `AbortProviderRegistration` take two or three such sections in a row, as the code does) |
| `Endpoints`, `ReverseRows`, `ReverseInvariants`, `ReverseRuns`, `ReverseOutcomes`, `ReverseChannelIds`, `ReverseManagers` | the client's reverse-tunnel manager: conflict tests, rows, invariants, theorems over runs and restarts, the answer and whole new state of each call, channel ids, and the manager object |
| `ProxyList`, `ProxyServers`, `AdminApi` | the configured list, the route objects and their reconciliation, the admin handlers and the ingress counter |
| `Streams` | message-to-stream adapters and the relay loops of the forward tunnel |
| `AccessAuth`, `Dialing` | keys, signatures, the server's check, and the client's dial loop against the server's time window |
| `ForwardRegistry`, `ForwardTunnels` | the client's registry of forward tunnels, as functions on its entries and as objects |

A queue between the two processes is the log of everything written to it and a
read cursor, so it is FIFO and reliable by construction (messages of a WebSocket
are delivered in order and whole, section 5.6 of RFC 6455). Every section the code
runs under a lock, and every single message read or written, is one step; steps
interleave freely. Writes fail once the agent connection is closed and may fail
before; reads may fail at any time. Session ids are fresh (`uuid.New`). Which of its
two writers a `detach` comes from is recorded in the model only, never read.

Runs of the reverse manager are serialized calls with exits of serve loops between
any two critical sections, also in the middle of a start. Strings parsed by
`net.SplitHostPort` and `strconv.Atoi`, ids parsed by `uuid.Parse`, addresses
resolved by `net.ResolveTCPAddr` and the SHA-1 digest are parameters, and every
theorem holds for all of them.

Properties that do not hold of the code are stated as results, each with a concrete
case and with the condition under which it holds: delivery to a consumer can start
after the first chunk (`DeliveryCanStartLate`, `ProviderToConsumer`), a session can
be registered on a channel that is drained already (`RegistersAfterTheDrain`,
`RegistersAfterDrainIff`), a timed-out attach leaves its connection at the provider
(`TimeoutLeavesConnection`, `FailedAttachEndsWithItsPump`), a row can lose its
channel id (`BlankAnswerTakesIdAway`, `ChannelIdLostIff`), a failed save leaves list
and routes apart (`FailedSave`, and the guards in `CreateProxy`, `UpdateProxy`,
`DeleteProxy`), a second sync can replace objects (`SyncTwice`), and a restart of the
forward registry loses the configuration of an entry whose port is taken
(`ConfigurationLost`, `RestartKeepsWhatListens`).
The comment on `ParseAPIKeyTokens` speaks of dropping repeated keys; the code keeps
them, and so does the model (`TokensRoundTrip`).

## Model

| member | source | states |
|---|---|---|
| `TunnelGuarantees.ConsumerToProvider` | internal/reversetunnel/broker.go:257-275 | in every state of every run, with any interleaving of sessions and channels: the frames of a session on the wire carry exactly the payloads its relay sent, those are what it read from the consumer but for at most the last message, and the bytes written to the session's local TCP connection are a prefix of them |
| `TunnelGuarantees.DeliveredAtDetach` | internal/clienttunnel/reverse.go:92-139 | if the session is still mapped when the provider comes to the relay's own detach, everything sent has been written, and everything read unless a write to the agent failed |
| `TunnelGuarantees.ProviderToConsumer` | internal/reversetunnel/broker.go:169-183 | what a consumer gets is a gapless window of the chunks its own pump wrote, starting after those read before the session was registered, a prefix if there were none; and all the chunks read since then, as long as the session is registered and the read loop not busy with it |
| `TunnelLimits.DeliveryCanStartLate` | internal/clienttunnel/reverse.go:98-121 | a run in which the window does not start at the first chunk: the pump writes before the ack, and the broker drops frames of a session it has not registered |
| `TunnelGuarantees.RegisteredOnce` | internal/reversetunnel/broker.go:253-255 | in `sessions` a session id is absent, then present, then absent for good |
| `TunnelGuarantees.WireDiscipline` | internal/reversetunnel/broker.go:187-275 | what is sent to a provider for one session is a prefix of attach data* (detach data*)? detach; nothing follows the attach before an ok ack has been read; `ackWait` and `sessions` never share an id; a registered session was dialled |
| `Sessions.WireMeaning` | internal/reversetunnel/broker.go:187-275 | the wire automaton of the invariant accepts only event sequences of that pattern, and its states tell which detaches have been sent |
| `Sessions.NoDataAfterRelayDetach` | internal/reversetunnel/broker.go:257-275 | after the relay's own detach no more data of the session is sent |
| `TunnelGuarantees.AttachAnswered` | internal/reversetunnel/broker.go:119-167 | a waiter gets at most one result and the non-blocking send never drops one; once the waiters are drained, every attach call at its wait has its result |
| `TunnelGuarantees.DeletesOwnChannel` | internal/reversetunnel/broker.go:92-106 | the channel deleted by id is always the caller's own object, and each is deleted at most once |
| `TunnelGuarantees.OneReaderPerId` | internal/reversetunnel/broker.go:58-90 | two channels with one id whose handlers have not unmapped it are the same channel, also across reclaims |
| `TunnelLimits.RegistersAfterTheDrain` | internal/reversetunnel/broker.go:238-255 | a run in which an attach, acked just before the provider goes, registers on a channel whose sessions have been drained |
| `TunnelLimits.RegistersAfterDrainIff` | internal/reversetunnel/broker.go:102-128 | once a handler has unmapped its channel, a session that is not registered is registered in some continuation of the run exactly if its attach call holds an ok result |
| `TunnelLimits.TimeoutLeavesConnection` | internal/reversetunnel/broker.go:238-251 | a run in which a timed-out attach sends no detach and the provider keeps its connection |
| `TunnelLimits.FailedAttachEndsWithItsPump` | internal/reversetunnel/broker.go:238-251 | whatever follows a failed attach, no more of its session is sent than its attach, it is never registered, and the provider has its connection mapped exactly from the dial to the end of the connection's own pump |
| `TunnelLimits.ExecIsRun` | internal/reversetunnel/broker.go:92-275 | every sequence of steps of one channel is that channel's part of a run of the whole broker |
| `TunnelGuarantees.ProjectedStep` | internal/reversetunnel/broker.go:44-48 | every step of the whole broker is, for each channel, one of the channel's own steps or none |
| `ChannelProofs.StepKeeps` | internal/reversetunnel/broker.go:92-275 | every step of every actor keeps the invariant of every session of a channel |
| `BrokerRuns.WorldStepKeeps` | internal/api/handler.go:451-486 | every step of broker, handlers and attach calls keeps all channels' invariants and the ownership of ids, under the order register, reply, then abort or start; an attach call keeps the object registered under the id it asked for |
| `BrokerRuns.DrainsOwn` | internal/reversetunnel/broker.go:102-128 | what a handler drains or closes after unmapping its id is its own channel |
| `AttachCalls.CallHoldsItsChannel` | internal/reversetunnel/broker.go:211-218 | in every state of every run, a call that has looked an id up holds an object registered under that id, and the one mapped to it at the moment of its lookup |
| `AttachCalls.CallsComeFromLookups` | internal/reversetunnel/broker.go:211-218 | in every step, the object a call holds was given to it before, or the call looks up just that id now and gets what is mapped to it |
| `AttachCalls.BeginsOnItsChannel` | internal/reversetunnel/broker.go:211-224 | the session of a call begins on the object the call holds and on no other, with the attach still to be written |
| `AttachCalls.SessionsAreAskedFor` | internal/reversetunnel/broker.go:211-224 | in every state of every run, a session that is not idle was taken by a call that asked for the id of the session's channel |
| `TunnelEndings.ReplyComesFirst` | internal/api/handler.go:475-486 | in every state of every run: the reply has been written exactly if the handler went on to its read loop, and not if it aborts; the provider serves only with the reply as its first message; a channel past its read loop has its agent closed |
| `TunnelEndings.FinishedRelayHasDetached` | internal/reversetunnel/broker.go:187-201 | a session that was registered at some point of a run and whose relay has finished by a later one has the relay's detach on the wire, unless that write failed |
| `TunnelEndings.RefusedSessionIsDetached` | internal/reversetunnel/broker.go:180-201 | a session whose consumer refused a body is taken out and has the read loop's detach on the wire once the loop has moved on, unless that write failed |
| `TunnelEndings.DetachUnmaps` | internal/clienttunnel/reverse.go:93-100 | in every state of every run: a session whose detach the provider has read, or whose pump has ended, is not mapped there |
| `TunnelEndings.AttachIsAnswered` | internal/clienttunnel/reverse.go:101-120 | in every state of every run: an attach the provider has read has been answered with an ack, or is about to be, unless the provider has stopped |
| `TunnelEndings.AckEndsTheWait` | internal/reversetunnel/broker.go:139-167 | in every state of every run: an ack the read loop has read has ended the wait of its session, or is about to |
| `TunnelEndings.WholeSession` | internal/reversetunnel/broker.go:211-275 | a run of one whole session: attach, ack, a payload each way, the consumer's close, the detach, and at the end the provider has the connection unmapped and the payload written, and the consumer has the chunk |
| `TunnelEndings.RefusedSession` | internal/reversetunnel/broker.go:180-201 | a run in which the consumer refuses a body, and the read loop's detach unmaps the connection |
| `Frames.ParseIffFrame` | internal/reversetunnel/frame.go:9-23 | a message parses to a session id and a body exactly if it is the frame of the two |
| `Frames.PrependSessionID` | internal/reversetunnel/frame.go:9-13 | the fresh buffer holds the 16 bytes of the id and then the payload |
| `Frames.ParsePrefixedMessage` | internal/reversetunnel/frame.go:16-23 | succeeds exactly for messages of at least 16 bytes, and returns what parsing them gives |
| `BrokerObjects.ChannelObject.InsertWaiter` | internal/reversetunnel/broker.go:220-224 | a new waiter is put under the fresh session id; the step of the transition system |
| `BrokerObjects.ChannelObject.WriteAttach` | internal/reversetunnel/broker.go:226-236 | the attach is written exactly if the agent is open and the write does not fail; the step |
| `BrokerObjects.ChannelObject.Wait` | internal/reversetunnel/broker.go:238-245 | the call goes on with the buffered result or with the timeout; the step |
| `BrokerObjects.ChannelObject.CleanUp` | internal/reversetunnel/broker.go:245-251 | a failed call takes its waiter out and closes its consumer; the step |
| `BrokerObjects.ChannelObject.Register` | internal/reversetunnel/broker.go:253-255 | the consumer is put under the session id; the step |
| `BrokerObjects.ChannelObject.Relay` | internal/reversetunnel/broker.go:257-275 | a consumer's message is written to the agent as one frame of its session; the step |
| `BrokerObjects.ChannelObject.RelayUnregisters` | internal/reversetunnel/broker.go:187-194 | the session is taken out, its consumer closed, and its detach comes next; the step |
| `BrokerObjects.ChannelObject.RelayDetaches` | internal/reversetunnel/broker.go:195-201 | the detach is written if the agent is open; the step |
| `BrokerObjects.ChannelObject.ReadAttached` | internal/reversetunnel/broker.go:139-155 | an ack takes the waiter of its session out of the map if it is there, and is ignored otherwise; the step |
| `BrokerObjects.ChannelObject.ReadBinary` | internal/reversetunnel/broker.go:169-179 | a binary message goes to the registered consumer its prefix names, and is dropped if there is none; the step |
| `BrokerObjects.ChannelObject.Answer` | internal/reversetunnel/broker.go:156-167 | the waiter's buffer was empty and now holds the result; the step |
| `BrokerObjects.ChannelObject.Deliver` | internal/reversetunnel/broker.go:180-183 | the body is written to the consumer, or the session is about to be closed; the step |
| `BrokerObjects.ChannelObject.LoopUnregisters` | internal/reversetunnel/broker.go:187-194 | the read loop takes the session out and closes its consumer; the step |
| `BrokerObjects.ChannelObject.DropSessions` | internal/reversetunnel/broker.go:110-117 | no session is left and every consumer that was registered is closed; the step |
| `BrokerObjects.ChannelObject.DropWaiters` | internal/reversetunnel/broker.go:119-127 | no waiter is left and every one that was there holds a failure; the step |
| `BrokerObjects.ChannelObject.Drain` | internal/reversetunnel/broker.go:110-127 | both drains in their order: no session and no waiter left, all told |
| `BrokerObjects.AnswerFits` | internal/reversetunnel/broker.go:164-167 | a waiter about to be answered, by the read loop or by the drain, has an empty buffer |
| `BrokerObjects.Broker.RegisterProvider` | internal/reversetunnel/broker.go:58-89 | the three rejections, each exactly when it applies and without effect; otherwise a new channel under the requested or new id, which was free |
| `BrokerObjects.Broker.LookUp` | internal/reversetunnel/broker.go:211-218 | the channel mapped to the id, or no channel and the consumer closed; nothing else changes |
| `BrokerObjects.Broker.AbortProviderRegistration` | internal/reversetunnel/broker.go:92-100 | the id is free again, the agent closed, and the channel has taken the two abort steps |
| `BrokerObjects.Broker.RemoveChannel` | internal/reversetunnel/broker.go:102-128 | the id is free again, all consumers are closed and all waiting calls answered, and the channel has taken the three exit steps |
| `ProviderObjects.Provider.ReadAttach` | internal/clienttunnel/reverse.go:101-113 | a dialled connection is mapped, and its pump running, before the ack is written; the step |
| `ProviderObjects.Provider.WriteAck` | internal/clienttunnel/reverse.go:114-120 | the result of the dial is written for the session that asked; a failed write ends the loop; the step |
| `ProviderObjects.Provider.ReadDetach` | internal/clienttunnel/reverse.go:93-100 | the session is unmapped and its connection closed; the step |
| `ProviderObjects.Provider.ReadBinary` | internal/clienttunnel/reverse.go:122-132 | a binary message goes to the connection mapped under its prefix, and is dropped if there is none; the step |
| `ProviderObjects.Provider.WriteTcp` | internal/clienttunnel/reverse.go:133-139 | the body, or the part of it a failing write got out, is appended to what was written to that connection; the step |
| `ProviderObjects.Provider.DropFailed` | internal/clienttunnel/reverse.go:133-139 | after a failed write the session is unmapped and the connection closed; the step |
| `ProviderObjects.Provider.PumpFrame` | internal/clienttunnel/reverse.go:151-162 | a chunk read from the connection is written as one frame of its session; the step |
| `ProviderObjects.Provider.PumpUnmaps` | internal/clienttunnel/reverse.go:145-150 | a pump that ends unmaps its session and closes its connection; the step |
| `Endpoints.BindingsEquivIffSameEndpoint` | internal/clienttunnel/reverse_manager.go:194-218 | two listen addresses conflict exactly if both are nonblank and denote the same canonical host and port, or are the same unparseable string |
| `Endpoints.CollidesIffSameEndpoint` | internal/clienttunnel/reverse_manager.go:146-192 | a listen address conflicts with an exposed port exactly if the port is at least 1 and both denote the same endpoint |
| `Endpoints.BindingsEquivIsPartialEquivalence` | internal/clienttunnel/reverse_manager.go:194-206 | the conflict test on listen addresses is symmetric and transitive |
| `Endpoints.CanonicalHosts` | internal/clienttunnel/reverse_manager.go:146-162 | whatever blanks are around it, a host stands for itself, and a blank one and `localhost` for 127.0.0.1 |
| `Endpoints.ListenEndpoints` | internal/clienttunnel/reverse_manager.go:164-218 | an address that can be split denotes its canonical host and its port, any other itself, whatever blanks are around it; only ports of at least 1 count |
| `Text.NormalizeServerURLScheme` | internal/clienttunnel/tunnel.go:49-68 | a normalized URL is secure exactly if the given one is https or wss, is plain WebSocket exactly if it is http, ws or has no scheme, keeps everything after the scheme, and any other URL entirely |
| `Text.TrimSpaceExact` | internal/clienttunnel/registry.go:57-63 | trimming takes away the blanks around a text, all of them and nothing else |
| `Text.NormalizeServerURLIdempotent` | internal/clienttunnel/tunnel.go:49-68 | a normalized URL is trimmed, is normalized already, and is blank only for a blank one |
| `ReverseInvariants.NormalizeProviderIdempotent` | internal/clienttunnel/reverse_manager.go:49-59 | normalizing a provider twice is normalizing it once |
| `ReverseInvariants.NormalizeConsumerIdempotent` | internal/clienttunnel/registry.go:240-253 | so for a consumer, also when a legacy channel id takes the place of its id |
| `ReverseInvariants.PaddedProviderIsRead` | internal/clienttunnel/reverse_manager.go:49-59 | normalizing takes away the blanks around a row's texts, fills in 127.0.0.1 for a blank host, normalizes the server's URL, and does nothing else |
| `ReverseInvariants.PaddedConsumerIsRead` | internal/clienttunnel/registry.go:240-253 | likewise for a consumer, whose id is its legacy channel id if that is not blank; the legacy id goes |
| `ReverseInvariants.ProviderConflictIffOccupied` | internal/clienttunnel/reverse_manager.go:322-349 | the conflict check of a provider fails exactly if another row has its endpoint |
| `ReverseInvariants.ConsumerConflictIffOccupied` | internal/clienttunnel/reverse_manager.go:448-469 | the conflict check of a consumer fails exactly if another row has its endpoint |
| `ReverseInvariants.ExitKeeps` | internal/clienttunnel/reverse_manager.go:304-316 | the exit of a serve loop at any moment keeps the invariant and every row's configuration |
| `ReverseInvariants.StartProviderKeeps` | internal/clienttunnel/reverse_manager.go:243-319 | a valid request whose endpoint is free puts its row down whatever the handshakes answer, changing no other row; any other request changes no row |
| `ReverseInvariants.StartConsumerKeeps` | internal/clienttunnel/reverse_manager.go:384-446 | likewise for a consumer, also if the listen fails |
| `ReverseInvariants.RemoveProviderKeeps` | internal/clienttunnel/reverse_manager.go:367-381 | a removal takes out exactly its row, after the row's loop has ended |
| `ReverseInvariants.RemoveConsumerKeeps` | internal/clienttunnel/reverse_manager.go:487-501 | likewise for a consumer |
| `ReverseRuns.RunWF` | internal/clienttunnel/reverse_manager.go:243-683 | whatever the file holds and whatever is called, with exits anywhere, every state of a run is well formed |
| `ReverseRuns.EndpointInjectivity` | internal/clienttunnel/reverse_manager.go:243-469 | in every state of every run the rows of both maps are on pairwise distinct endpoints, each under its own id |
| `ReverseRuns.OneLoopPerRow` | internal/clienttunnel/reverse_manager.go:252-316 | in every state of every run a row shows a websocket or listener exactly if a live serve loop runs for it, there is at most one, and the row is enabled |
| `ReverseRuns.ExitOnlyEndsItsOwnInstance` | internal/clienttunnel/reverse_manager.go:304-316 | the exit of a loop clears the instance it runs for and leaves every other instance, also a newer one of the same row, as it was |
| `ReverseRuns.StopAllStopsAll` | internal/clienttunnel/reverse_manager.go:504-533 | stopping all rows leaves no serve loop and every row's configuration |
| `ReverseOutcomes.StartProviderOutcome` | internal/clienttunnel/reverse_manager.go:243-319 | the result and the whole new state of a start: `Invalid` exactly for a blank server or a port out of range, `Conflict` exactly if another row has the endpoint, with the old instance ended; otherwise the row is idle if disabled, idle and failed if neither reclaim nor fresh offer is answered, and else running with a fresh loop under the answered channel id, which is the result; nothing else changes but for loops that exit |
| `ReverseOutcomes.StartConsumerOutcome` | internal/clienttunnel/reverse_manager.go:384-446 | likewise: `Invalid` exactly for a blank server, a blank listen address or no id, `Conflict` exactly if another row has the endpoint, `ListenFailed` exactly if it gets as far as listening and that fails, with the row left idle and failed; a success leaves a disabled row idle and an enabled one listening with a fresh loop |
| `ReverseOutcomes.RejectedRestartStops` | internal/clienttunnel/reverse_manager.go:252-263 | a restart rejected for a conflict, of a provider or of a consumer, is a stop of the row and nothing else |
| `ReverseOutcomes.StopEndsTheRow` | internal/clienttunnel/reverse_manager.go:352-364 | the whole state after a stop, of a provider or of a consumer: the named row's loop is gone, and those that happen to exit |
| `ReverseOutcomes.StoppedRowIsDown` | internal/clienttunnel/reverse_manager.go:472-484 | the stopped row has no loop and keeps its configuration; no other row loses its loop but by an exit of its own, and without such exits nothing else changes |
| `ReverseOutcomes.RemoveEndsTheRow` | internal/clienttunnel/reverse_manager.go:367-381 | the whole state after a removal: as after the stop, without the row |
| `ReverseOutcomes.BootProviderOutcome` | internal/clienttunnel/reverse_manager.go:643-663 | a row of the file is skipped if it is invalid, put down idle if it is disabled, free and not running, and otherwise started |
| `ReverseOutcomes.BootConsumerOutcome` | internal/clienttunnel/reverse_manager.go:666-683 | likewise for a consumer |
| `ReverseOutcomes.RestartRunsWhatShould` | internal/clienttunnel/reverse_manager.go:569-683 | after any run, bringing up the saved rows, in any order and with no loop exiting meanwhile, gives a serve loop to exactly the enabled providers that are answered and the enabled consumers whose listen succeeds |
| `ReverseChannelIds.ChannelIdAfterCall` | internal/clienttunnel/reverse_manager.go:220-301 | the channel id of a row that has one, after any call: the answered one of a restart that succeeds, be it blank, the requested or kept one of a restart that fails or is disabled, and its own after every other call but its removal |
| `ReverseChannelIds.ChannelIdLostIff` | internal/clienttunnel/reverse_manager.go:276-301 | a row that stays loses its channel id exactly by a valid, conflict-free, enabled restart whose deciding handshake succeeds with a blank id |
| `ReverseChannelIds.SomeChannelIdSticks` | internal/clienttunnel/reverse_manager.go:220-301 | along any continuation of a run in which no start of the row is answered with a blank id, the row has some channel id until it is removed |
| `ReverseChannelIds.BlankAnswerTakesIdAway` | internal/clienttunnel/reverse.go:46-62 | a run in which a row with a channel id has none after a restart, the reply being ok with a blank id |
| `ReverseChannelIds.ChannelIdSticks` | internal/clienttunnel/reverse_manager.go:220-301 | along any continuation of a run in which the row is not removed, no other id is requested and none is answered, the row keeps its channel id |
| `ReverseChannelIds.MergeAddsTheChannelId` | internal/clienttunnel/reverse_manager.go:220-238 | in every state of every run, merging a request with its row adds the channel id of the row's configuration to a request without one and changes nothing else: the answered id, which the code falls back on, never differs from it |
| `ReverseRuns.RestartLosesNoRow` | internal/clienttunnel/reverse_manager.go:569-683 | after any run, bringing up the saved rows, in any order, gives the same ids with equal configurations, whatever handshakes and listens fail; only the channel id of an enabled provider may differ |
| `ReverseManagers.ReverseManager.ServeLoopExits` | internal/clienttunnel/reverse_manager.go:304-316 | the new state is the row function's |
| `ReverseManagers.ReverseManager.CheckProviderConflicts` | internal/clienttunnel/reverse_manager.go:322-349 | the two loops over the maps find a conflict exactly if there is one |
| `ReverseManagers.ReverseManager.CheckConsumerConflicts` | internal/clienttunnel/reverse_manager.go:448-469 | the two loops over the maps find a conflict exactly if there is one |
| `ReverseManagers.ReverseManager.StartProvider` | internal/clienttunnel/reverse_manager.go:243-300 | end the old instance, check, let loops exit, run: keeps the invariant and gives the row function's state and result |
| `ReverseManagers.ReverseManager.RunProvider` | internal/clienttunnel/reverse_manager.go:258-300 | the reclaim, then the fresh offer, then the row with or without its loop: the row function's state and result, and for an enabled row the answer, instance and loop outright |
| `ReverseManagers.ReverseManager.StartConsumer` | internal/clienttunnel/reverse_manager.go:384-446 | keeps the invariant and gives the row function's state and result |
| `ReverseManagers.ReverseManager.RunConsumer` | internal/clienttunnel/reverse_manager.go:403-445 | the row put down, left behind after a failed listen, or running: the row function's state and result, and for an enabled row the answer, instance and loop outright |
| `ReverseManagers.ReverseManager.StopProvider` | internal/clienttunnel/reverse_manager.go:352-364 | keeps the invariant and gives the row function's state, also for a blank id; the row has no loop left and nothing else changes but by exits |
| `ReverseManagers.ReverseManager.RemoveProvider` | internal/clienttunnel/reverse_manager.go:367-381 | keeps the invariant and gives the row function's state, also for a blank id |
| `ReverseManagers.ReverseManager.StopConsumer` | internal/clienttunnel/reverse_manager.go:472-484 | keeps the invariant and gives the row function's state, also for a blank id; the row has no loop left and nothing else changes but by exits |
| `ReverseManagers.ReverseManager.RemoveConsumer` | internal/clienttunnel/reverse_manager.go:487-501 | keeps the invariant and gives the row function's state, also for a blank id |
| `ReverseManagers.ReverseManager.StopAll` | internal/clienttunnel/reverse_manager.go:504-533 | no loop is left and every row keeps its configuration |
| `ReverseManagers.ReverseManager.PutInactiveProvider` | internal/clienttunnel/reverse_manager.go:604-617 | a running row and a conflict are refused, otherwise the row is put down without a loop |
| `ReverseManagers.ReverseManager.PutInactiveConsumer` | internal/clienttunnel/reverse_manager.go:620-633 | a running row and a conflict are refused, otherwise the row is put down without a listener |
| `ReverseManagers.ReverseManager.BootstrapProviders` | internal/clienttunnel/reverse_manager.go:643-663 | the loop over the file's rows ends in the state of the row function |
| `ReverseManagers.ReverseManager.BootstrapConsumers` | internal/clienttunnel/reverse_manager.go:666-683 | the loop over the file's rows ends in the state of the row function |
| `ReverseManagers.ReverseManager.PersistedProviders` | internal/clienttunnel/reverse_manager.go:569-584 | lists every provider's configuration, each once |
| `ReverseManagers.ReverseManager.PersistedConsumers` | internal/clienttunnel/reverse_manager.go:586-601 | lists every consumer's configuration, each once |
| `ProxyServers.ProxyManager.SyncWithConfig` | internal/proxy/manager.go:152-200 | for every prior map and every list: the ids are the listed ones, each is served as its last entry says, an object stays in place exactly if no entry asks for another route, and as it was, start time included, if it served its entry before; new objects count no tunnels, objects that go are stopped; synced once already, nothing at all changes exactly if no two entries with one id ask for different routes |
| `ProxyServers.ProxyManager.SyncTwice` | internal/proxy/manager.go:152-200 | two syncs to one list: the second leaves every object, configuration, status and count as the first one did exactly if no two entries with one id ask for different routes |
| `ProxyServers.ProxyManager.SyncEntry` | internal/proxy/manager.go:161-188 | one entry: same route, same object, and the same status if it served the entry already; otherwise the old object is stopped and a new one takes its place |
| `ProxyServers.ProxyManager.StartAll` | internal/proxy/manager.go:29-38 | the first entry of each new id gets the route; ids already there keep their object |
| `ProxyServers.ProxyManager.AddProxy` | internal/proxy/manager.go:52-68 | refuses a known id without effect, otherwise adds a new object that serves the configuration |
| `ProxyServers.ProxyManager.UpdateProxy` | internal/proxy/manager.go:86-109 | refuses an unknown id, otherwise a new object serves the configuration and the old one is stopped, its status otherwise as it was, with its count |
| `ProxyServers.ProxyManager.RemoveProxy` | internal/proxy/manager.go:71-83 | refuses an unknown id, otherwise the object leaves the map stopped, its status otherwise as it was, with its count |
| `ProxyServers.TCPServer.ReloadConfig` | internal/proxy/proxy.go:117-134 | the object serves the new configuration, running or stopped as it says; a running one keeps its start time, and one that served it already its whole status |
| `ProxyServers.TCPServer.Start` | internal/proxy/proxy.go:67-92 | the whole new status: running since now if enabled, otherwise stopped |
| `ProxyList.LastIsLast` | internal/proxy/manager.go:158-188 | the entry a sync serves is one with that id after which none has it |
| `ProxyList.FirstIsFirst` | internal/proxy/manager.go:29-38 | the entry a start serves is one with that id before which none has it |
| `ProxyList.FirstIsLast` | internal/proxy/manager.go:29-38 | with distinct ids a start and a sync serve the same entries |
| `ProxyList.SecondSyncKeepsAll` | internal/proxy/manager.go:161-178 | every listed id's last entry asks for the route of all its entries exactly if no two entries with one id ask for different routes |
| `AdminApi.ConfigManager.Save` | internal/config/config.go:130-160 | succeeds exactly if every address of the list in memory resolves and the write does; only then the file changes |
| `AdminApi.ConfigManager.AddProxy` | internal/config/config.go:170-174 | the entry is in the list in memory even if the save fails |
| `AdminApi.ConfigManager.UpdateProxy` | internal/config/config.go:177-192 | the first entry with the id is replaced under its id, before the save |
| `AdminApi.ConfigManager.RemoveProxy` | internal/config/config.go:195-209 | the first entry with the id goes, before the save |
| `AdminApi.Handler.constructor` | internal/proxy/manager.go:29-38 | after the start the routes agree with the list if its ids are distinct |
| `AdminApi.Handler.CreateProxy` | internal/api/handler.go:197-233 | its result, new list and new routes; if list and routes agreed, the runtime half never fails, and they agree again exactly if every address of the longer list resolves and the file is written |
| `AdminApi.Handler.UpdateProxy` | internal/api/handler.go:252-290 | likewise: they agree again exactly if the id is unknown, or its entry is what it was, or every address of the new list resolves and the file is written |
| `AdminApi.Handler.DeleteProxy` | internal/api/handler.go:293-315 | likewise: they agree again exactly if the id is unknown, or every address of the shorter list resolves and the file is written |
| `AdminApi.FailedSave` | internal/config/config.go:170-174 | an address that does not resolve is added to an agreeing list: list and routes disagree, the file is as before, and a later good proxy cannot be added either |
| `AdminApi.Handler.ReloadConfig` | internal/api/handler.go:320-337 | after a reload list and routes agree, whatever went wrong before, exactly if the ids are distinct; a file that cannot be read changes nothing |
| `AdminApi.Handler.LookUpIngress` | internal/proxy/manager.go:141-150 | the object of the id, if there is one, is now among those looked up, whose counts are kept track of from here on |
| `AdminApi.Handler.ReadTarget` | internal/api/handler.go:376-383 | a disabled object is refused, the target of an enabled one fixed |
| `AdminApi.Handler.CheckRunning` | internal/api/handler.go:384-390 | an object looked up before passes exactly if it is enabled and still in the map: an enabled one is refused exactly if it has been replaced or removed since |
| `AdminApi.Handler.CountIngress` | internal/api/handler.go:391 | the object looked up is held and counted once more, also if it has left the map; every object's count stays the number of its holders |
| `AdminApi.Handler.EndIngress` | internal/api/handler.go:392 | the object is released and counted once less, though it may have left the map; every object's count stays the number of its holders, never negative |
| `Streams.WsConn.Read` | internal/clienttunnel/tunnel.go:303-323 | bytes returned, the unread rest and the queued messages add up to what was there; a buffer with room gets at least one byte; reading fails only at the end; the loop ends, also over empty messages |
| `Streams.ByteReader.Read` | internal/clienttunnel/tunnel.go:365-372 | copies as much as fits, and reports the end exactly if nothing was left |
| `Streams.CopyFromWs` | internal/clienttunnel/tunnel.go:224-227 | the local connection gets the whole stream, or as much of it as it takes |
| `Streams.CopyToWs` | internal/clienttunnel/tunnel.go:220-223 | the messages sent carry a prefix of the bytes read, and all of them unless a write fails |
| `Streams.RelayFromTarget` | internal/proxy/ws_handler.go:68-81 | the server's messages carry a prefix of the target's bytes; with no failing write it is everything exactly if the last piece does not come together with the error that ends the stream |
| `Streams.RelayToTarget` | internal/proxy/ws_handler.go:54-66 | the target gets the concatenation of the messages, or as much of it as it takes |
| `Streams.ClientToTarget` | internal/proxy/ws_handler.go:54-66 | the client's copy loop, the connection and the server's loop in a row: the target gets a prefix of the local connection's bytes, and all of them if no write fails, every message arrives and the target has room |
| `Streams.TargetToClient` | internal/proxy/ws_handler.go:68-81 | the other direction likewise, all of the bytes also requiring that the last piece does not come with the error |
| `AccessAuth.ParseAPIKeyTokens` | internal/config/access_auth.go:11-24 | the loop returns the nonblank trimmed parts in order |
| `AccessAuth.TokensRoundTrip` | internal/config/access_auth.go:11-24 | every list of trimmed nonblank keys without commas is read back from its comma-separated form, repetitions included |
| `AccessAuth.TokensAreKeys` | internal/config/access_auth.go:11-24 | every key read is trimmed, nonblank and without commas |
| `AccessAuth.TokensOfParts` | internal/config/access_auth.go:11-24 | the keys of any list of comma-free parts are the parts, trimmed, without the blank ones |
| `AccessAuth.PaddedKeysAreRead` | internal/config/access_auth.go:11-24 | keys with blanks around them are read without the blanks |
| `AccessAuth.BlankPartsAreSkipped` | internal/config/access_auth.go:11-24 | a blank part anywhere in the list adds no key |
| `AccessAuth.TimestampRoundTrip` | internal/clienttunnel/tunnel.go:259-260 | the timestamp the client writes is the number the server reads, for every 64-bit value |
| `AccessAuth.ParseIntIff` | internal/api/access_auth.go:75-86 | a timestamp is a number exactly if it is digits after at most one sign, at least one of them, and fits into 64 bits; and it is that number |
| `AccessAuth.AcceptedIff` | internal/api/access_auth.go:52-101 | a request passes exactly if no key is configured, or it is a preflight, or it carries a configured key, a timestamp within 300 seconds and the digest of key, timestamp and key, each on its line |
| `AccessAuth.CheckTokensAcceptsIff` | internal/api/access_auth.go:88-100 | the search over the keys accepts exactly a configured key with the digest of key, timestamp and key, in any letter case |
| `AccessAuth.RefusedFor` | internal/api/access_auth.go:52-101 | a request that has to be checked is refused for the first of missing, bad timestamp, skewed, unknown key and bad signature that applies, and for nothing else |
| `AccessAuth.AnyLetterCase` | internal/api/access_auth.go:43-50 | the texts accepted for a digest are exactly the digest with any of its letters in upper case |
| `AccessAuth.PayloadBinds` | internal/api/access_auth.go:29-33 | the signed text determines the key and the timestamp |
| `AccessAuth.SignatureIsBound` | internal/api/access_auth.go:52-101 | a signature accepted once is refused with every other key and every other timestamp text, at any time, unless the hash takes both signed texts to one digest |
| `AccessAuth.HeadersWin` | internal/api/access_auth.go:52-73 | with all three headers given, the query does not matter |
| `AccessAuth.QueryStandsIn` | internal/api/access_auth.go:52-73 | where a header is blank the query's value counts, and what counts can all be given in headers |
| `Dialing.DialWebSocketPath` | internal/clienttunnel/tunnel.go:268-295 | every attempt but the last failed on the network, the last decides, and the k-th starts after k dials and k pauses |
| `Dialing.PausesBeforeTheLast` | internal/clienttunnel/tunnel.go:289-293 | there are ten attempts, the pauses after them are 1, 2, 4, 8, 16, 32 and then 60 seconds, and those before the last add up to 243 |
| `Dialing.SignedQuery` | internal/clienttunnel/tunnel.go:257-266 | the query carries the trimmed key, the second of signing and the digest of the signed text, and nothing for a blank key |
| `Dialing.SignedIsAcceptedIff` | internal/clienttunnel/tunnel.go:257-266 | a request signed with a configured key is accepted exactly within 300 seconds of its second |
| `Dialing.AcceptedAtEveryAttempt` | internal/clienttunnel/tunnel.go:257-295 | for every key list, every key of it and every dial durations that take at most 57 seconds before the check, the one signature is accepted at every attempt |
| `Dialing.AcceptedWheneverSignedIff` | internal/api/access_auth.go:78-86 | a check some time after signing succeeds for every moment of signing exactly if that time is at most 300 seconds |
| `ForwardRegistry.RunWF` | internal/clienttunnel/registry.go:81-145 | every state of every run keeps the entries' invariant |
| `ForwardRegistry.ListenersApart` | internal/clienttunnel/registry.go:65-104 | in every state of every run no two entries have one port of at least 1, and an entry that listens does so on its stored port with its stored configuration in use |
| `ForwardRegistry.PaddedConfigIsRead` | internal/clienttunnel/registry.go:57-63 | normalizing takes away the blanks around an entry's texts, calls an unnamed one `default`, normalizes the server's URL, and does nothing else |
| `ForwardRegistry.StartRowOutcome` | internal/clienttunnel/registry.go:81-104 | the result and the whole new state of a start: `Invalid` and `Busy` exactly when, changing nothing; otherwise the entry listens with the new configuration, or is left stopped with its old one, or with none if it is new |
| `ForwardRegistry.StopRowOutcome` | internal/clienttunnel/registry.go:107-119 | a stop ends the listener of the entry it names, `default` for a blank id, keeps its stored and active configuration and every other entry, and does nothing for an unknown id |
| `ForwardRegistry.RemoveRowOutcome` | internal/clienttunnel/registry.go:131-145 | a removal takes out exactly the entry it names and refuses a blank id |
| `ForwardRegistry.StopThenStart` | internal/clienttunnel/registry.go:81-119 | in every state of every run, a stopped entry can be started again with what a save holds for it as soon as the system lets it listen, and if it was listening this leads back to the same state |
| `ForwardRegistry.RestartKeepsWhatListens` | internal/clienttunnel/registry.go:288-300 | a restart brings every configured entry back, with its configuration exactly if it can listen at once and empty otherwise |
| `ForwardRegistry.ConfigurationLost` | internal/clienttunnel/registry.go:92-103 | an entry that ran, a restart in which its port is taken, and one in which it is free: the first leaves it without a configuration to save, the second without an entry |
| `ForwardTunnels.Tunnel.Start` | internal/clienttunnel/tunnel.go:109-135 | an invalid request changes nothing; a failed listen leaves the tunnel stopped with its old configuration; otherwise it listens with the new one |
| `ForwardTunnels.Registry.Start` | internal/clienttunnel/registry.go:81-104 | the new entries and the result are those of the entry function |
| `ForwardTunnels.Registry.LocalPortBusy` | internal/clienttunnel/registry.go:65-78 | the loop finds another entry with the port exactly if there is one and the port is at least 1 |
| `ForwardTunnels.Registry.Stop` | internal/clienttunnel/registry.go:107-119 | the new entries are those of the entry function; the named entry, `default` for a blank id, has no listener, and every configuration and every other listener is as it was |
| `ForwardTunnels.Registry.Remove` | internal/clienttunnel/registry.go:131-145 | the new entries and the result are those of the entry function; exactly the named entry is gone, its tunnel stopped, and a blank id is refused |
| `ForwardTunnels.Registry.BootstrapFromConfigs` | internal/clienttunnel/registry.go:288-300 | the loop over the file's entries ends in the state of the entry function |

## Left out

- Text messages are values, not JSON: a message that does not decode, and a session id that does not parse, is skipped by both loops and changes nothing.
- Deadlines and clocks in the broker: a timeout of an attach may happen whenever the call waits; the handshake's own deadline is a failed read.
- TCP dialing, accepting and closing are outcomes chosen by the environment; how a closed connection makes a read fail is covered by reads that may fail at any time.
- A consumer's connection may still take a write after it was closed: the model allows more deliveries than the code, and the guarantees hold for all of them.
- Eventual cleanup: nothing is promised about provider connections after an attach timeout (`TimeoutLeavesConnection`), nor about `sessions` staying empty after a channel's end (`RegistersAfterTheDrain`).
- `reverseConsumerBridgeTCP` and `ServeReverseConsumer`: the consumer's own client; its copy loops are those of the forward tunnel, its accept loop and connection gauge are not modelled.
- Memory-level races: reads of `serveDone` and `ws` outside the lock, `localPortBusy` before the lock, and the reply written by `RTunnelProvider` beside the writers of the broker are single atomic steps here.
- Concurrent admin requests: the handlers of the proxy list are taken one after the other. Ingress handlers interleave with them section by section; only the moment between a route object's stop and its leaving the map, within one locked section of the manager, is not seen by them here.
- Concurrent calls on the reverse manager: it gives its lock back between check and insert, so all its theorems are about calls made one after the other.
- RestartRunsWhatShould: speaks of starts during which no serve loop exits; one that does ends its own row only (`ExitOnlyEndsItsOwnInstance`).
- The order of the saved lists: the code sorts them for display; the restart theorems hold for every order.
- YAML, files, the watcher and reload callbacks: saving and loading rows is taken to be lossless.
- The default server port and static directory that loading fills in, log messages, error texts and status snapshots.
- `ProxyManager.StopAll`, `Registry.StopAll`, `GetAllStatus` and the other read-only handlers.
- URL encoding of the signed query, case folding beyond ASCII, and `VerifyPlainCredential`.
- The command-line programs, the web front ends and their embedded file servers.
