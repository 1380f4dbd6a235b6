# KNXnet/IP client connection engine

This project models the connection engine of `KNXClient`, a KNXnet/IP client for KNX building
automation. It also models the codec of the `CONNECT_RESPONSE` frame that the engine reads while
a connection is being opened. The model covers:

- the connection state machine: `Connect`, `Disconnect`, `_setDisconnected` and the connect,
  disconnect and description timeouts;
- the heartbeat: `startHeartBeat`, `stopHeartBeat`, `_runHeartbeat` and `getConnectionStatus`,
  with its failure count and its limit of three;
- the tunnelling sequence counter (`_incSeqNumber`) and the table of pending acknowledgements
  (`_tunnelReqTimer`) with its timeouts;
- the send path of the four group requests (`write`, `respond`, `read`, `writeRaw`) over a UDP or
  TCP tunnel and over multicast routing, including the local echo;
- discovery (`startDiscovery`, `stopDiscovery`, `isDiscoveryRunning`) and `getDescription`;
- the dispatch of inbound frames in `_processInboundMessage`, one branch per service type;
- the `CONNECT_RESPONSE` body: `createFromBuffer`, the constructor, `toBuffer` and
  `statusToString`.

Timers are explicit. Every `setTimeout` takes a fresh handle from a counter and files its callback
in a map of scheduled callbacks. `clearTimeout` removes the handle from that map. Firing a timer
removes the handle and runs the callback body. Timers that no field names any more therefore stay
visible: the disconnect fallback that `_setDisconnected` fails to clear, the acknowledgement
timers of a table that is replaced, and an entry that `_setTimerAndCallback` overwrites.

Files:

- `knx_types.dfy` (module `KnxTypes`): octets, `Option` and `Result`.
- `connect_response.dfy` (module `KnxConnectResponse`): the `CONNECT_RESPONSE` body, its parser and
  serialiser, and the status texts.
- `client_model.dfy` (module `ClientModel`): the client's fields as one value (`ClientState`), one
  function per operation of the engine, and the invariant `Inv`.
- `client_invariant.dfy` (module `ClientInvariant`): every operation keeps `Inv`.
- `client_properties.dfy` (module `ClientProperties`): what the operations do, as lemmas about the
  functions of `ClientModel`.
- `knx_client.dfy` (module `KnxClientEngine`): class `KnxClient`, whose fields are the client's
  fields. Each method performs the source's assignments in order. Each method is proved to leave
  the fields exactly as the matching function of `ClientModel` says, and to keep `Inv`.

The outcome of an operation is `Done` or `Threw(error)` for the exceptions the source throws. Events
passed to `emit` are appended to `events`, and packets passed to `send` are appended to `outbox`.

## Model

| member | source | states |
|---|---|---|
| `KnxConnectResponse.New` | KNXEngine/protocol/KNXConnectResponse.js:9-15 | The constructor succeeds exactly when an HPAI comes with a CRD. It keeps channel id, status, HPAI and CRD. The declared length is 2 without an HPAI and 2 + HPAI length + CRD length with one. |
| `KnxConnectResponse.ParseBlock` | KNXEngine/protocol/KNXConnectResponse.js:24-26 | A length-prefixed HPAI/CRD block is read exactly when its length octet is at least 1 and stays inside the buffer. The block is then the slice of that length. |
| `KnxConnectResponse.Parse` | KNXEngine/protocol/KNXConnectResponse.js:16-29 | createFromBuffer fails with "buffer too short" exactly when fewer than two octets follow the offset. Channel id and status are the two octets at the offset. An HPAI is present exactly when more octets follow, and neither an HPAI nor a CRD when none do. When more octets follow, parsing succeeds exactly when an HPAI block reads right after the two octets and a CRD block reads right after the HPAI. The result is well formed and lies within the buffer. |
| `KnxConnectResponse.ToBuffer` | KNXEngine/protocol/KNXConnectResponse.js:50-58 | toBuffer writes channel id and status, followed by nothing without an HPAI, or by the HPAI octets and then the CRD octets with one. Its length is the declared length of every constructed response. |
| `KnxConnectResponse.ParseThenToBuffer` | KNXEngine/protocol/KNXConnectResponse.js:16-58 | Serialising a parsed response gives back exactly the octets the parser consumed. |
| `KnxConnectResponse.TwoOctetRoundTrip` | KNXEngine/protocol/KNXConnectResponse.js:16-58 | A two-octet body always parses, and it serialises back to itself. |
| `KnxConnectResponse.ToBufferThenParse` | KNXEngine/protocol/KNXConnectResponse.js:16-58 | Parsing a serialised response recovers its channel id and status. It recovers the whole response unless a CRD stands without an HPAI. |
| `KnxConnectResponse.StatusToString` | KNXEngine/protocol/KNXConnectResponse.js:30-49 | Each of the seven listed connect errors has its fixed text. Every other code gives "Unknown error " followed by its decimal value. |
| `KnxConnectResponse.StatusToStringInjective` | KNXEngine/protocol/KNXConnectResponse.js:30-49 | Different status codes never give the same text. |
| `KnxConnectResponse.UnknownTextMarker` | KNXEngine/protocol/KNXConnectResponse.js:46-47 | A status text starts with 'U' exactly when the code is not one of the seven listed ones. |
| `KnxConnectResponse.Decimal` | KNXEngine/protocol/KNXConnectResponse.js:47 | The template literal writes a number as a non-empty string of decimal digits with no leading zero. |
| `KnxConnectResponse.DecimalRoundTrip` | KNXEngine/protocol/KNXConnectResponse.js:47 | Reading the decimal text back gives the number, so different numbers give different texts. |
| `ClientModel.NextSeq` | KNXEngine/KNXClient.js:655-661 | The new counter is below 256. An acknowledged number from 1 to 255 sets it to that number + 1, modulo 256. An acknowledged 0 is falsy, so the current counter + 1 is used instead, modulo 256. |
| `ClientInvariant.InitialInv` | KNXEngine/KNXClient.js:82-177 | A new client satisfies the invariant `Inv`. |
| `ClientInvariant.StopHeartBeatInv` | KNXEngine/KNXClient.js:476-481 | stopHeartBeat keeps `Inv`. |
| `ClientInvariant.SetDisconnectedInv` | KNXEngine/KNXClient.js:624-643 | _setDisconnected keeps `Inv`. |
| `ClientInvariant.ResetInv` | KNXEngine/KNXClient.js:629-637 | The field resets at the end of _setDisconnected keep `Inv`. |
| `ClientInvariant.AwaitResponseInv` | KNXEngine/KNXClient.js:535-546 | Arming `_timer` with a request timeout and recording the awaited response keeps `Inv`. |
| `ClientInvariant.GetConnectionStatusInv` | KNXEngine/KNXClient.js:578-605 | getConnectionStatus keeps `Inv`. |
| `ClientInvariant.RunHeartbeatInv` | KNXEngine/KNXClient.js:644-651 | _runHeartbeat keeps `Inv`. |
| `ClientInvariant.StartHeartBeatInv` | KNXEngine/KNXClient.js:470-475 | startHeartBeat keeps `Inv`. |
| `ClientInvariant.HeartbeatTimedOutInv` | KNXEngine/KNXClient.js:585-602 | The heartbeat timeout keeps `Inv`, including the failure count below three. |
| `ClientInvariant.ConnectInv` | KNXEngine/KNXClient.js:511-577 | Connect keeps `Inv` on every transport. |
| `ClientInvariant.BeginConnectInv` | KNXEngine/KNXClient.js:525-576 | Connect past its guards keeps `Inv`. |
| `ClientInvariant.ConnectingInv` | KNXEngine/KNXClient.js:525-530 | Entering Connecting, clearing `_timer` and announcing `connecting` keeps `Inv` on a tunnel. |
| `ClientInvariant.DisconnectInv` | KNXEngine/KNXClient.js:606-620 | Disconnect keeps `Inv` from every state. |
| `ClientInvariant.ArmFallbackInv` | KNXEngine/KNXClient.js:617-619 | Arming the disconnect fallback keeps `Inv`. |
| `ClientInvariant.GetDescriptionInv` | KNXEngine/KNXClient.js:501-510 | getDescription keeps `Inv`. |
| `ClientInvariant.StartDiscoveryInv` | KNXEngine/KNXClient.js:485-493 | startDiscovery keeps `Inv`. |
| `ClientInvariant.StopDiscoveryInv` | KNXEngine/KNXClient.js:494-500 | stopDiscovery keeps `Inv`. |
| `ClientInvariant.SendLDataRequestInv` | KNXEngine/KNXClient.js:278-324 | Sending a group request once connected keeps `Inv`. Over a tunnel the table gains a live acknowledgement timer. |
| `ClientInvariant.SetTimerAndCallbackTimers` | KNXEngine/KNXClient.js:666-677 | _setTimerAndCallback keeps the timer part of `Inv` for a counter below 256. |
| `ClientInvariant.WriteInv` | KNXEngine/KNXClient.js:278-324 | write keeps `Inv`. |
| `ClientInvariant.RespondInv` | KNXEngine/KNXClient.js:326-372 | respond keeps `Inv`. |
| `ClientInvariant.ReadInv` | KNXEngine/KNXClient.js:374-417 | read keeps `Inv`. |
| `ClientInvariant.WriteRawInv` | KNXEngine/KNXClient.js:418-469 | writeRaw keeps `Inv`. |
| `ClientInvariant.FireInv` | KNXEngine/KNXClient.js:535-545 | Firing any scheduled timer keeps `Inv`. The timer bodies are the callbacks passed to setTimeout in Connect, Disconnect, getConnectionStatus, _runHeartbeat, startDiscovery, getDescription and _setTimerAndCallback. |
| `ClientInvariant.RunCallbackInv` | KNXEngine/KNXClient.js:612-619 | Every callback body except the acknowledgement timeout keeps `Inv`. |
| `ClientInvariant.ClearedHandleInv` | KNXEngine/KNXClient.js:537-541 | A request timeout that forgets `_timer`, and reports the connect timeout, keeps `Inv`. |
| `ClientInvariant.AckTimedOutInv` | KNXEngine/KNXClient.js:666-677 | The acknowledgement timeout keeps `Inv`: every other pending acknowledgement keeps a live timer. |
| `ClientInvariant.ProcessInboundInv` | KNXEngine/KNXClient.js:678-861 | Handling any inbound datagram keeps `Inv`. |
| `ClientInvariant.OnDisconnectResponseInv` | KNXEngine/KNXClient.js:717-730 | The DISCONNECT_RESPONSE branch keeps `Inv`. |
| `ClientInvariant.OnDisconnectRequestInv` | KNXEngine/KNXClient.js:731-745 | The DISCONNECT_REQUEST branch keeps `Inv`. |
| `ClientInvariant.OnConnectResponseInv` | KNXEngine/KNXClient.js:692-716 | The CONNECT_RESPONSE branch keeps `Inv`. |
| `ClientInvariant.AcceptConnectionInv` | KNXEngine/KNXClient.js:700-709 | Accepting a connection and starting the heartbeat keeps `Inv`. |
| `ClientInvariant.OnTunnelingAckInv` | KNXEngine/KNXClient.js:775-805 | The TUNNELING_ACK branch keeps `Inv`. |
| `ClientInvariant.OnAwaitedResponseInv` | KNXEngine/KNXClient.js:822-852 | Settling an awaited response keeps `Inv`. |
| `ClientProperties.ConnectGuard` | KNXEngine/KNXClient.js:511-524 | Connect throws exactly when there is no socket or the client is connecting, connected or disconnecting. With a socket, Disconnecting throws IsDisconnecting, Connecting throws IsConnecting and Connected throws AlreadyConnected. A Connect that throws changes nothing. |
| `ClientProperties.ConnectUdp` | KNXEngine/KNXClient.js:525-549 | Over UDP, Connect from Disconnected enters Connecting and announces `connecting`. It resets the counter, cancels the old `_timer`, arms the connect timeout, awaits CONNECT_RESPONSE and sends one connect request for the layer. |
| `ClientProperties.ConnectTcp` | KNXEngine/KNXClient.js:550-563 | Over TCP, Connect enters Connecting and announces `connecting`, but sends nothing and arms no timer. |
| `ClientProperties.ConnectMulticast` | KNXEngine/KNXClient.js:566-576 | Over routing, Connect goes to Connected with counter 0 and announces `connecting` then `connected`. It sends nothing. |
| `ClientProperties.ConnectTimeoutLeavesConnecting` | KNXEngine/KNXClient.js:535-545 | The connect timeout reports the timeout and forgets `_timer`, but the client stays Connecting. A second Connect is then refused. |
| `ClientProperties.DisconnectEffects` | KNXEngine/KNXClient.js:606-620 | Disconnect works from any state. It stops a heartbeat that has a handle, enters Disconnecting and sends one disconnect request on the current channel. It arms the request timeout and then the fallback under the next two handles. |
| `ClientProperties.NoSocketThrows` | KNXEngine/KNXClient.js:578-582 | Without a socket, Disconnect, getDescription, getConnectionStatus and Connect (on either tunnel layer) throw NoSocket and change nothing. |
| `ClientProperties.SetDisconnectedResets` | KNXEngine/KNXClient.js:624-643 | From any state, _setDisconnected leaves the client Disconnected with counter 0, no channel, an empty acknowledgement table and a closed socket. It appends `disconnected` to the events. |
| `ClientProperties.SetDisconnectedLeavesTimers` | KNXEngine/KNXClient.js:624-643 | _setDisconnected leaves the fallback timer and every pending acknowledgement timer scheduled. It cancels the `_timer` callback but keeps the handle. |
| `ClientProperties.TeardownUnschedules` | KNXEngine/KNXClient.js:624-628 | _setDisconnected unschedules only the `_timer` and heartbeat timers. |
| `ClientProperties.SetDisconnectedTwice` | KNXEngine/KNXClient.js:624-643 | A second _setDisconnected announces `disconnected` again. |
| `ClientProperties.StaleFallbackTearsDownNewConnection` | KNXEngine/KNXClient.js:606-643 | Disconnect, then a DISCONNECT_RESPONSE, then a new Connect: the old fallback is still scheduled and, when it fires, tears the new connection down. |
| `ClientProperties.FallbackSurvivesResponse` | KNXEngine/KNXClient.js:717-730 | A DISCONNECT_RESPONSE tears down but leaves the fallback timer scheduled with its callback. |
| `ClientProperties.ConnectKeepsTimer` | KNXEngine/KNXClient.js:525-549 | Connect over UDP leaves every other scheduled timer in place. |
| `ClientProperties.FallbackFires` | KNXEngine/KNXClient.js:617-619 | The disconnect fallback, whenever it fires, leaves the client Disconnected and announces `disconnected`. |
| `ClientProperties.GroupRequestsRequireConnected` | KNXEngine/KNXClient.js:278-469 | write, respond, read and writeRaw throw unless the client is Connected, and then change nothing. |
| `ClientProperties.WriteRawDropsNonBuffer` | KNXEngine/KNXClient.js:418-424 | writeRaw with a value that is not a buffer sends nothing and changes nothing. |
| `ClientProperties.TunnelledSendTagsCurrentCounter` | KNXEngine/KNXClient.js:304-323 | Over a tunnel, the shared send path sends one tunnelling request on the client's channel, tagged with the current counter. The counter does not change. An acknowledgement timeout is filed under that counter exactly when acknowledgements are not suppressed. Otherwise the table and the scheduled timers are unchanged. |
| `ClientProperties.TunnelledWriteTagsCurrentCounter` | KNXEngine/KNXClient.js:304-323 | A tunnelled write succeeds and follows that rule, with ack 1 unless acknowledgements are suppressed. |
| `ClientProperties.TunnelledRequestsTagCurrentCounter` | KNXEngine/KNXClient.js:326-469 | A tunnelled respond, read or writeRaw with a buffer succeeds and follows the same rule. Read asks for ack 0, respond and writeRaw for ack 1 unless acknowledgements are suppressed. |
| `ClientProperties.MulticastNeverArms` | KNXEngine/KNXClient.js:286-303 | Over routing, a group request is one routing indication with ack 0 and arms no timer. |
| `ClientProperties.EchoRules` | KNXEngine/KNXClient.js:278-469 | Over routing, write and writeRaw always echo, while respond and read echo only with localEchoInTunneling. Over a tunnel, all four echo exactly with localEchoInTunneling. |
| `ClientProperties.ReadAckZeroButArmed` | KNXEngine/KNXClient.js:397-416 | A tunnelled read asks for no acknowledgement (ack 0), yet it files an acknowledgement timeout. |
| `ClientProperties.OverwriteOrphansTimer` | KNXEngine/KNXClient.js:666-677 | Two writes under the same counter: the second replaces the table entry, and the first timer stays scheduled with nothing naming it. |
| `ClientProperties.AckOnOtherChannel` | KNXEngine/KNXClient.js:775-780 | An acknowledgement on another channel, or with no channel open, changes nothing. |
| `ClientProperties.AckOnChannel` | KNXEngine/KNXClient.js:775-805 | An acknowledgement on the client's channel moves the counter past the acknowledged number and removes that number's pending entry. It cancels that entry's timer and emits nothing. |
| `ClientProperties.AckZeroAdvancesCurrent` | KNXEngine/KNXClient.js:655-661 | An acknowledged number 0 advances the current counter by one, modulo 256, instead of setting it to 1. |
| `ClientProperties.WriteThenAck` | KNXEngine/KNXClient.js:304-323 | A tunnelled write followed by its acknowledgement: the counter moves on, the entry is gone and its timer is cancelled. |
| `ClientProperties.WriteThenTimeout` | KNXEngine/KNXClient.js:666-677 | A tunnelled write whose acknowledgement timeout fires: the request is reported and forgotten, and the counter stays. |
| `ClientProperties.OrphanTimeoutForgetsLaterRequest` | KNXEngine/KNXClient.js:666-677 | An orphaned acknowledgement timer, when it fires, removes the entry of the later request that shares its number. |
| `ClientProperties.TunnelingRequestAcked` | KNXEngine/KNXClient.js:746-774 | A tunnelling request on the client's channel is acknowledged once, with E_NO_ERROR and its own sequence counter. It is reported only when it is an L_Data.ind. Nothing else in the client changes. Off the channel, it is ignored. |
| `ClientProperties.RoutingIndicationReported` | KNXEngine/KNXClient.js:806-818 | A routing indication is reported exactly when it carries an L_Data.ind, and nothing is sent. |
| `ClientProperties.MalformedReported` | KNXEngine/KNXClient.js:854-859 | A datagram that does not parse is reported as an error and changes nothing else. |
| `ClientProperties.RoutingLostIgnored` | KNXEngine/KNXClient.js:819-821 | A routing-lost message changes nothing. |
| `ClientProperties.ConnectResponseIgnored` | KNXEngine/KNXClient.js:692-694 | Outside Connecting, a connect response changes nothing. |
| `ClientProperties.ConnectResponseRefused` | KNXEngine/KNXClient.js:692-699 | A refused connect response cancels the connect timeout, reports the status text and tears down. |
| `ClientProperties.ConnectResponseAccepted` | KNXEngine/KNXClient.js:692-716 | An accepted connect response opens the response's channel and announces `connected`. It starts the heartbeat: failures reset, one connection-state request on the new channel, and the heartbeat timeout and the next tick scheduled. |
| `ClientProperties.DisconnectResponseTearsDown` | KNXEngine/KNXClient.js:717-730 | A disconnect response always tears down. It is reported as unexpected unless a disconnect was under way. |
| `ClientProperties.DisconnectRequestAnswered` | KNXEngine/KNXClient.js:731-745 | A disconnect request on the client's channel is answered with E_NO_ERROR, and then the client tears down. Off the channel, it is ignored. |
| `ClientProperties.SearchResponseReported` | KNXEngine/KNXClient.js:682-691 | A search response is reported exactly while a discovery runs. |
| `ClientProperties.OtherResponsePassedOn` | KNXEngine/KNXClient.js:822-852 | Any other service type is passed on as a response event. Only the awaited type settles its timer. |
| `ClientProperties.ConnectionStateOk` | KNXEngine/KNXClient.js:824-842 | An awaited, successful connection-state response resets the failure count and cancels the heartbeat timeout. |
| `ClientProperties.ConnectionStateRefusedTearsDown` | KNXEngine/KNXClient.js:824-837 | An awaited, failed connection-state response reports its status and tears down. |
| `ClientProperties.StartHeartBeatEffects` | KNXEngine/KNXClient.js:470-475 | startHeartBeat runs with failures at 0. It sends one connection-state request and schedules its timeout and the next tick. State, channel, `_timer` and events are untouched. |
| `ClientProperties.HeartbeatTimeoutCounts` | KNXEngine/KNXClient.js:585-593 | A heartbeat timeout below the limit only counts the failure and forgets the handle. |
| `ClientProperties.ThreeStrikes` | KNXEngine/KNXClient.js:593-601 | The third consecutive heartbeat timeout reports a dead connection, tears down and sets the count back to 0. |
| `ClientProperties.StopHeartBeatAfterTimeout` | KNXEngine/KNXClient.js:476-481 | After a heartbeat timeout has forgotten the handle, stopHeartBeat does not stop the heartbeat, and the next tick probes again. |
| `ClientProperties.StopHeartBeatStops` | KNXEngine/KNXClient.js:476-481 | stopHeartBeat with a handle stops the heartbeat: a later tick does nothing. |
| `ClientProperties.StartDiscoveryEffects` | KNXEngine/KNXClient.js:485-493 | startDiscovery throws exactly while a discovery runs. Otherwise it arms the discovery expiry and sends a search request. |
| `ClientProperties.DiscoveryEnds` | KNXEngine/KNXClient.js:485-500 | A discovery ends either through stopDiscovery, which cancels its timer, or when that timer fires. |
| `ClientProperties.StopDiscoveryIdle` | KNXEngine/KNXClient.js:494-500 | stopDiscovery while no discovery runs changes nothing. |
| `ClientProperties.GetDescriptionEffects` | KNXEngine/KNXClient.js:501-510 | getDescription arms a fresh `_timer` without clearing the old one, awaits DESCRIPTION_RESPONSE and sends a description request. |
| `KnxClientEngine.KnxClient.constructor` | KNXEngine/KNXClient.js:82-177 | A new client is Disconnected, with no channel, counter 0, no timers, no traffic and `Inv`. |
| `KnxClientEngine.KnxClient.SetTimeout` | KNXEngine/KNXClient.js:585 | Schedules the callback under the next fresh handle and returns that handle. |
| `KnxClientEngine.KnxClient.ClearTimeout` | KNXEngine/KNXClient.js:627 | Unschedules the handle if one is set, and nothing else. |
| `KnxClientEngine.KnxClient.Send` | KNXEngine/KNXClient.js:210-268 | Appends the packet to the outbox, and nothing else. |
| `KnxClientEngine.KnxClient.Emit` | KNXEngine/KNXClient.js:630-633 | Appends the event to the events, and nothing else. |
| `KnxClientEngine.KnxClient.GetSeqNumber` | KNXEngine/KNXClient.js:652-654 | Returns the counter, which is below 256 under `Inv`. |
| `KnxClientEngine.KnxClient.IncSeqNumber` | KNXEngine/KNXClient.js:655-661 | Stores `NextSeq` of the counter and the acknowledged number and returns it. |
| `KnxClientEngine.KnxClient.SetTimerAndCallback` | KNXEngine/KNXClient.js:666-677 | Files a fresh acknowledgement timeout under the counter, replacing any entry. |
| `KnxClientEngine.KnxClient.StopHeartBeat` | KNXEngine/KNXClient.js:476-481 | The fields become `ClientModel.StopHeartBeat` of the old fields, and `Inv` is kept. |
| `KnxClientEngine.KnxClient.GetConnectionStatus` | KNXEngine/KNXClient.js:578-605 | Fields and outcome are `ClientModel.GetConnectionStatus` of the old fields, and `Inv` is kept. |
| `KnxClientEngine.KnxClient.RunHeartbeat` | KNXEngine/KNXClient.js:644-651 | Fields and outcome are `ClientModel.RunHeartbeat` of the old fields, and `Inv` is kept. |
| `KnxClientEngine.KnxClient.StartHeartBeat` | KNXEngine/KNXClient.js:470-475 | Fields and outcome are `ClientModel.StartHeartBeat` of the old fields, and `Inv` is kept. |
| `KnxClientEngine.KnxClient.HeartbeatTimedOut` | KNXEngine/KNXClient.js:585-602 | The fields become `ClientModel.HeartbeatTimedOut` of the old fields. |
| `KnxClientEngine.KnxClient.SetDisconnected` | KNXEngine/KNXClient.js:624-643 | The fields become `ClientModel.SetDisconnected` of the old fields, and `Inv` is kept. |
| `KnxClientEngine.KnxClient.ReleaseTimers` | KNXEngine/KNXClient.js:625-628 | Drops the fallback handle without clearing its timer, cancels `_timer` and stops the heartbeat. |
| `KnxClientEngine.KnxClient.Connect` | KNXEngine/KNXClient.js:511-577 | Fields and outcome are `ClientModel.Connect` of the old fields, and `Inv` is kept. |
| `KnxClientEngine.KnxClient.BeginConnect` | KNXEngine/KNXClient.js:525-576 | The fields become `ClientModel.BeginConnect` of the old fields. |
| `KnxClientEngine.KnxClient.AwaitResponse` | KNXEngine/KNXClient.js:612-615 | Arms a request timeout under `_timer` and records the awaited response type. |
| `KnxClientEngine.KnxClient.Disconnect` | KNXEngine/KNXClient.js:606-620 | Fields and outcome are `ClientModel.Disconnect` of the old fields, and `Inv` is kept. |
| `KnxClientEngine.KnxClient.ArmFallback` | KNXEngine/KNXClient.js:617-619 | Arms the disconnect fallback and keeps its handle. |
| `KnxClientEngine.KnxClient.GetDescription` | KNXEngine/KNXClient.js:501-510 | Fields and outcome are `ClientModel.GetDescription` of the old fields, and `Inv` is kept. |
| `KnxClientEngine.KnxClient.StartDiscovery` | KNXEngine/KNXClient.js:485-493 | Fields and outcome are `ClientModel.StartDiscovery` of the old fields, and `Inv` is kept. |
| `KnxClientEngine.KnxClient.StopDiscovery` | KNXEngine/KNXClient.js:494-500 | The fields become `ClientModel.StopDiscovery` of the old fields, and `Inv` is kept. |
| `KnxClientEngine.KnxClient.SendLDataRequest` | KNXEngine/KNXClient.js:286-323 | The fields become `ClientModel.SendLDataRequest` of the old fields. |
| `KnxClientEngine.KnxClient.Write` | KNXEngine/KNXClient.js:278-324 | Fields and outcome are `ClientModel.Write` of the old fields, and `Inv` is kept. |
| `KnxClientEngine.KnxClient.Respond` | KNXEngine/KNXClient.js:326-372 | Fields and outcome are `ClientModel.Respond` of the old fields, and `Inv` is kept. |
| `KnxClientEngine.KnxClient.Read` | KNXEngine/KNXClient.js:374-417 | Fields and outcome are `ClientModel.Read` of the old fields, and `Inv` is kept. |
| `KnxClientEngine.KnxClient.WriteRaw` | KNXEngine/KNXClient.js:418-469 | Fields and outcome are `ClientModel.WriteRaw` of the old fields, and `Inv` is kept. |
| `KnxClientEngine.KnxClient.FireTimer` | KNXEngine/KNXClient.js:612-619 | Fields and outcome are `ClientModel.Fire` of the old fields, and `Inv` is kept. |
| `KnxClientEngine.KnxClient.RunCallback` | KNXEngine/KNXClient.js:535-545 | Fields and outcome are `ClientModel.RunCallback` of the old fields. |
| `KnxClientEngine.KnxClient.ProcessInbound` | KNXEngine/KNXClient.js:678-861 | The fields become `ClientModel.ProcessInbound` of the old fields, and `Inv` is kept. |
| `KnxClientEngine.KnxClient.OnSearchResponse` | KNXEngine/KNXClient.js:682-691 | The fields become `ClientModel.OnSearchResponse` of the old fields. |
| `KnxClientEngine.KnxClient.OnDisconnectResponse` | KNXEngine/KNXClient.js:717-730 | The fields become `ClientModel.OnDisconnectResponse` of the old fields. |
| `KnxClientEngine.KnxClient.OnDisconnectRequest` | KNXEngine/KNXClient.js:731-745 | The fields become `ClientModel.OnDisconnectRequest` of the old fields. |
| `KnxClientEngine.KnxClient.OnTunnelingRequest` | KNXEngine/KNXClient.js:746-774 | The fields become `ClientModel.OnTunnelingRequest` of the old fields. |
| `KnxClientEngine.KnxClient.OnRoutingIndication` | KNXEngine/KNXClient.js:806-818 | The fields become `ClientModel.OnRoutingIndication` of the old fields. |
| `KnxClientEngine.KnxClient.OnConnectResponse` | KNXEngine/KNXClient.js:692-716 | The fields become `ClientModel.OnConnectResponse` of the old fields. |
| `KnxClientEngine.KnxClient.RefuseConnection` | KNXEngine/KNXClient.js:695-699 | Reports the status text of the refusal, then runs _setDisconnected. |
| `KnxClientEngine.KnxClient.AcceptConnection` | KNXEngine/KNXClient.js:700-715 | The fields become `ClientModel.AcceptConnection` of the old fields. |
| `KnxClientEngine.KnxClient.OnTunnelingAck` | KNXEngine/KNXClient.js:775-805 | The fields become `ClientModel.OnTunnelingAck` of the old fields. |
| `KnxClientEngine.KnxClient.OnAwaitedResponse` | KNXEngine/KNXClient.js:822-852 | The fields become `ClientModel.OnAwaitedResponse` of the old fields. |

## Left out

- Socket I/O is left out. Sending is appending to `outbox`. Failures inside `send`, the socket's own events, binding, and the close in `_setDisconnected` are not modelled. The close is recorded as `socketClosed`, and inbound frames are still accepted after it.
- The TCP stream's connect callback is left out. It sets the awaited type and the counter, and optionally starts a secure session. Over TCP, Connect stops at Connecting.
- KNX Secure is left out: the secure session request and the `isSecureKNXEnabled` option.
- Timer durations (the connect, connection-state and keep-alive periods) are left out. Only the order in which callbacks fire matters, and the environment chooses it through `FireTimer`.
- Encoding datapoint values (`getKNXDataBuffer` and the DPT library) is left out. `write` and `respond` take the already-encoded payload. `writeRaw`'s `bitlength` argument is never read by the source, which keeps it only for backward compatibility, so it is not a parameter of the model.
- Parsing of group and individual addresses is left out. Addresses are opaque numbers, and the exception thrown for an invalid address is not modelled.
- Logging, the `rinfo` sender information, hex dumps and the texts of error messages are left out. Errors are tagged values. A connect refusal carries the text of `statusToString`. A connection-state refusal carries the status code.
- KNXConstants, HPAI, CRD, KNXProtocol, CEMIFactory, KNXPacket, KNXHeader and the frame classes are not part of this model. An HPAI or a CRD is a block whose first octet is its own length, and an inbound frame is the fields the engine reads.
- The `channelID` getter and `isConnected` are plain reads of the fields. They are the predicate `KnxClient.IsConnected` and the field `channelID`.
- `_awaitingResponseType` is set but never reset. The model keeps that: a late response of the same type is treated as awaited again.
- `startDiscovery` does not check for a socket, and the model does not either.
- `ProcessInbound` over TunnelTCP: the TCP socket's data handler only logs what arrives (KNXEngine/KNXClient.js:138-140), so a TCP client never dispatches an inbound frame. The model does not tie inbound frames to the transport, so it over-approximates there: a TCP client can take a CONNECT_RESPONSE and reach Connected, which the code cannot.
- The code does less than its names and comments suggest, and the model keeps what the code does:
  - the teardown does not cancel every timer: the disconnect fallback and the acknowledgement timers of the replaced table stay scheduled;
  - a tunnelled request is tagged with the current counter, not the next one, and only an acknowledgement advances the counter;
  - multicast `write` and `writeRaw` echo locally whatever the local-echo option says;
  - the connect timeout reports an error but leaves the client in Connecting;
  - Disconnect has no state precondition.
- Counters are unbounded integers where the source uses JavaScript numbers. The sequence counter wraps at 255 as written, and the timer handle counter is never reused.
